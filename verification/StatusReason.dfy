/** Guessing the exact reason of a failure from a status reason and message. */
module StatusReason {
  import opened Wrappers
  import opened Text

  const APP_RUNTIME_FAILURE := "AppRuntimeFailure"
  const BAD_CONTAINER_IMAGE := "BadContainerImage"
  const MISSING_PREFIX := "Missing"
  const REVISION_FAILED := "RevisionFailed"

  const CONTAINER_FAILURE_PREFIX := "Container failed with: "
  const FETCH_IMAGE_ERROR_PREFIX := "Unable to fetch image \""
  const QUOTE_NOT_FOUND := "\" not found"
  const MAX_NAME_LENGTH := 253

  const RUNTIME_ERRORS := {"CrashLoopBackOff", "RunContainerError", "RunInitContainerError", "CreatePodSandboxError",
                           "ConfigPodSandboxError", "VerifyNonRootError"}
  const IMAGE_PULL_ERRORS := {"ImagePullBackOff", "ImageInspectError", "ErrImagePull", "ErrImageNeverPull",
                              "RegistryUnavailable", "InvalidImageName"}
  const RESOURCE_MISSING_ERRORS := {"CreateContainerConfigError", "CreateContainerError", REVISION_FAILED}

  predicate IsAscii(s: string)
  {
    forall i :: 0 <= i < |s| ==> s[i] < 128 as char
  }

  predicate IsLetter(c: char)
  {
    'a' <= c <= 'z' || 'A' <= c <= 'Z'
  }

  predicate HasSuffix(s: string, suffix: string)
  {
    |suffix| <= |s| && s[|s| - |suffix|..] == suffix
  }

  function TrimDot(s: string): string
  {
    if HasSuffix(s, ".") then s[..|s| - 1] else s
  }

  predicate OccursAt(s: string, part: string, i: int)
  {
    0 <= i <= |s| - |part| && s[i..i + |part|] == part
  }

  predicate Contains(s: string, part: string)
  {
    exists i :: 0 <= i <= |s| && OccursAt(s, part, i)
  }

  function LastIndex(s: string, c: char): (r: int)
    ensures -1 <= r < |s|
    ensures r >= 0 ==> s[r] == c
    ensures forall i :: r < i < |s| ==> s[i] != c
  {
    if s == "" then -1
    else if s[|s| - 1] == c then |s| - 1
    else LastIndex(s[..|s| - 1], c)
  }

  /** Where the run of letters that ends before `end` begins. */
  function WordStart(m: string, end: nat): (r: nat)
    requires end <= |m|
    ensures r <= end && (forall i :: r <= i < end ==> IsLetter(m[i])) && (r > 0 ==> !IsLetter(m[r - 1]))
  {
    if end == 0 || !IsLetter(m[end - 1]) then end else WordStart(m, end - 1)
  }

  function Capitalised(t: string): string
  {
    if t == "" then "" else [UpperChar(t[0])] + t[1..]
  }

  /** The word before the quoted name that ends at `closing`, capitalised. */
  function TypeBefore(m: string, closing: nat): Option<string>
    requires closing <= |m|
  {
    var opening := LastIndex(m[..closing], '\"');
    if opening <= 0 || closing - opening + 1 > MAX_NAME_LENGTH || m[opening - 1] != ' ' then None
    else
      var start := WordStart(m, opening - 1);
      if start == opening - 1 then None else Some(Capitalised(m[start..opening - 1]))
  }

  /** The type of the missing resource, if the message tells of one. */
  function MissingType(reason: string, message: string): Option<string>
  {
    var m := TrimDot(message);
    if reason !in RESOURCE_MISSING_ERRORS || !HasSuffix(m, QUOTE_NOT_FOUND) then None
    else TypeBefore(m, |m| - |QUOTE_NOT_FOUND|)
  }

  /** The loop of `isResourceMissingError` that walks back, from before the
      opening quote, to the beginning of the word. */
  method ScanWord(msg: string, opening: nat) returns (typeBeginning: nat)
    requires 0 < opening <= |msg|
    ensures typeBeginning == WordStart(msg, opening - 1)
  {
    typeBeginning := opening - 1;
    var i := opening - 1;
    while i > 0
      invariant 0 <= i <= opening - 1
      invariant WordStart(msg, i) == WordStart(msg, opening - 1)
      invariant i == 0 ==> typeBeginning == 0
    {
      if IsLetter(msg[i - 1]) {
        if i - 1 == 0 {
          typeBeginning := 0;
        }
        i := i - 1;
        continue;
      }
      typeBeginning := i;
      break;
    }
  }

  /** Its loop that copies the word with a capital. */
  method CopyCapitalised(word: string) returns (typ: string)
    ensures typ == Capitalised(word)
  {
    typ := "";
    for j := 0 to |word|
      invariant typ == Capitalised(word[..j])
    {
      assert word[..j + 1] == word[..j] + [word[j]];
      if j == 0 {
        typ := typ + [UpperChar(word[j])];
        assert word[..1][1..] == [];
      } else {
        typ := typ + [word[j]];
        assert word[..j + 1][1..] == word[..j][1..] + [word[j]];
      }
    }
    assert word[..|word|] == word;
  }

  /** Its part after the suffix was found at `closing`; every index stays in
      range. */
  method ParseType(msg: string, closing: nat) returns (missing: bool, typ: string)
    requires closing < |msg|
    ensures missing <==> TypeBefore(msg, closing).Some?
    ensures typ == if missing then TypeBefore(msg, closing).value else ""
  {
    var opening := LastIndex(msg[..closing], '\"');
    if opening <= 0 || closing - opening + 1 > MAX_NAME_LENGTH || msg[opening - 1] != ' ' {
      return false, "";
    }
    var typeBeginning := ScanWord(msg, opening);
    if opening - 1 - typeBeginning == 0 {
      return false, "";
    }
    typ := CopyCapitalised(msg[typeBeginning..opening - 1]);
    missing := true;
  }

  /** `isResourceMissingError`. */
  method IsResourceMissingError(reason: string, message: string) returns (missing: bool, typ: string)
    requires IsAscii(message)
    ensures missing <==> MissingType(reason, message).Some?
    ensures typ == if missing then MissingType(reason, message).value else ""
  {
    if reason !in RESOURCE_MISSING_ERRORS {
      return false, "";
    }
    var msg := TrimDot(message);
    if !HasSuffix(msg, QUOTE_NOT_FOUND) {
      return false, "";
    }
    missing, typ := ParseType(msg, |msg| - |QUOTE_NOT_FOUND|);
  }

  // ------------------------------------------------------------ what is parsed

  ghost predicate IsShape(m: string, before: string, word: string, name: string, suffix: string)
  {
    && m == before + word + " \"" + name + suffix
    && word != "" && (forall i :: 0 <= i < |word| ==> IsLetter(word[i]))
    && (before != "" ==> !IsLetter(before[|before| - 1]))
    && '\"' !in name && |name| + 2 <= 253
  }

  /** The shape of a message that tells of a missing resource: a word, a space,
      a quoted name, and the words "not found". */
  ghost predicate TellsMissing(m: string, before: string, word: string, name: string)
  {
    IsShape(m, before, word, name, "\" not found")
  }

  lemma LastIndexIs(s: string, c: char, r: int)
    requires 0 <= r < |s| && s[r] == c && forall i :: r < i < |s| ==> s[i] != c
    ensures LastIndex(s, c) == r
  {
  }

  lemma {:induction false} WordStartIs(m: string, end: nat, r: nat)
    requires r <= end <= |m| && (forall i :: r <= i < end ==> IsLetter(m[i])) && (r > 0 ==> !IsLetter(m[r - 1]))
    ensures WordStart(m, end) == r
  {
    if end > r {
      WordStartIs(m, end - 1, r);
    }
  }

  lemma TypeFromIndices(m: string, start: nat, quote: nat, closing: nat)
    requires start < quote - 1 && quote < closing <= |m| && closing - quote + 1 <= MAX_NAME_LENGTH
    requires m[quote] == '\"' && m[quote - 1] == ' ' && forall i :: quote < i < closing ==> m[i] != '\"'
    requires (forall i :: start <= i < quote - 1 ==> IsLetter(m[i])) && (start > 0 ==> !IsLetter(m[start - 1]))
    ensures TypeBefore(m, closing) == Some(Capitalised(m[start..quote - 1]))
  {
    assert forall i :: 0 <= i < closing ==> m[..closing][i] == m[i];
    LastIndexIs(m[..closing], '\"', quote);
    WordStartIs(m, quote - 1, start);
  }

  /** The word begins at `start`, and the name follows its quote. */
  ghost predicate HasParts(m: string, start: nat, quote: nat, closing: nat, word: string, name: string)
  {
    && quote == start + |word| + 1 && closing == quote + 1 + |name| && closing <= |m|
    && m[start..quote - 1] == word && m[quote - 1] == ' ' && m[quote] == '\"'
    && (forall i :: start <= i < quote - 1 ==> m[i] == word[i - start])
    && (forall i :: quote < i < closing ==> m[i] == name[i - quote - 1])
  }

  lemma PartsOf(m: string, b: string, w: string, n: string, e: string, closing: nat)
    requires m == b + w + " \"" + n + e && closing == |b| + |w| + 2 + |n|
    ensures HasParts(m, |b|, |b| + |w| + 1, closing, w, n) && |m| == closing + |e| && m[closing..] == e
    ensures |b| > 0 ==> m[|b| - 1] == b[|b| - 1]
  {
  }

  lemma TypeFromParts(m: string, start: nat, quote: nat, closing: nat, word: string, name: string)
    requires HasParts(m, start, quote, closing, word, name) && word != "" && '\"' !in name && |name| + 2 <= MAX_NAME_LENGTH
    requires (forall i :: 0 <= i < |word| ==> IsLetter(word[i])) && (start > 0 ==> !IsLetter(m[start - 1]))
    ensures TypeBefore(m, closing) == Some(Capitalised(word))
  {
    forall i | quote < i < closing
      ensures m[i] != '\"'
    {
      assert name[i - quote - 1] in name;
    }
    TypeFromIndices(m, start, quote, closing);
  }

  lemma WordIsFound(m: string, before: string, word: string, name: string, suffix: string, closing: nat)
    requires IsShape(m, before, word, name, suffix) && closing == |before| + |word| + 2 + |name|
    ensures |m| == closing + |suffix| && m[closing..] == suffix
    ensures TypeBefore(m, closing) == Some(Capitalised(word))
  {
    PartsOf(m, before, word, name, suffix, closing);
    TypeFromParts(m, |before|, |before| + |word| + 1, closing, word, name);
  }

  lemma ShapeIsParsed(reason: string, message: string, before: string, word: string, name: string)
    requires reason in RESOURCE_MISSING_ERRORS && TellsMissing(TrimDot(message), before, word, name)
    ensures MissingType(reason, message) == Some(Capitalised(word))
  {
    WordIsFound(TrimDot(message), before, word, name, QUOTE_NOT_FOUND, |before| + |word| + 2 + |name|);
  }

  lemma Slices(m: string, start: nat, opening: nat, closing: nat)
    requires start < opening < closing <= |m|
    ensures m == m[..start] + m[start..opening - 1] + m[opening - 1..opening + 1] + m[opening + 1..closing] + m[closing..]
  {
  }

  lemma ShapeFromIndices(m: string, start: nat, opening: nat, closing: nat)
    requires start < opening - 1 < closing - 1 < |m|
    requires m[opening] == '\"' && m[opening - 1] == ' ' && closing - opening + 1 <= MAX_NAME_LENGTH
    requires forall i :: opening < i < closing ==> m[i] != '\"'
    requires (forall i :: start <= i < opening - 1 ==> IsLetter(m[i])) && (start > 0 ==> !IsLetter(m[start - 1]))
    ensures IsShape(m, m[..start], m[start..opening - 1], m[opening + 1..closing], m[closing..])
  {
    Slices(m, start, opening, closing);
    assert m[opening - 1..opening + 1] == " \"";
    var name := m[opening + 1..closing];
    assert forall i :: 0 <= i < |name| ==> name[i] == m[opening + 1 + i];
  }

  lemma FoundWordHasShape(m: string, closing: nat) returns (before: string, word: string, name: string)
    requires closing < |m| && TypeBefore(m, closing).Some?
    ensures IsShape(m, before, word, name, m[closing..]) && TypeBefore(m, closing) == Some(Capitalised(word))
  {
    var opening := LastIndex(m[..closing], '\"');
    var start := WordStart(m, opening - 1);
    before, word, name := m[..start], m[start..opening - 1], m[opening + 1..closing];
    assert forall i :: opening < i < closing ==> m[i] == m[..closing][i];
    ShapeFromIndices(m, start, opening, closing);
  }

  lemma ParsedHasShape(reason: string, message: string) returns (before: string, word: string, name: string)
    requires MissingType(reason, message).Some?
    ensures TellsMissing(TrimDot(message), before, word, name) && MissingType(reason, message) == Some(Capitalised(word))
  {
    var m := TrimDot(message);
    before, word, name := FoundWordHasShape(m, |m| - |QUOTE_NOT_FOUND|);
  }

  /** The exact language that is recognised: for a matching reason, a type T is
      reported if and only if the message, less one final dot, is some text, a
      maximal run of letters that capitalises to T, a space, a quoted name of at
      most 253 characters with its quotes, and the words "not found". */
  lemma RecognisesExactlyMissingMessages(reason: string, message: string, typ: string)
    ensures MissingType(reason, message) == Some(typ) <==>
            reason in {"CreateContainerConfigError", "CreateContainerError", "RevisionFailed"}
            && exists before, word, name :: TellsMissing(TrimDot(message), before, word, name) && typ == Capitalised(word)
  {
    if MissingType(reason, message) == Some(typ) {
      var before, word, name := ParsedHasShape(reason, message);
    }
    if reason in RESOURCE_MISSING_ERRORS {
      forall before, word, name | TellsMissing(TrimDot(message), before, word, name)
        ensures MissingType(reason, message) == Some(Capitalised(word))
      {
        ShapeIsParsed(reason, message, before, word, name);
      }
    }
  }

  lemma TrimDotCutsOneDot(s: string)
    ensures TrimDot(s + ".") == s
    ensures (forall t :: s != t + ".") ==> TrimDot(s) == s
  {
    assert (s + ".")[|s|..] == "." && (s + ".")[..|s|] == s;
    if HasSuffix(s, ".") {
      assert s == s[..|s| - 1] + ".";
    }
  }

  lemma WordIsCapitalised(c: char, rest: string)
    ensures Capitalised([c] + rest) == [UpperChar(c)] + rest && Capitalised("") == ""
  {
    assert ([c] + rest)[1..] == rest;
  }

  lemma LettersAreLetters(c: char)
    ensures IsLetter(c) <==> c in "ABCDEFGHIJKLMNOPQRSTUVWXYZ" || c in "abcdefghijklmnopqrstuvwxyz"
  {
    LettersChangeCase(c);
    if 'A' <= c <= 'Z' {
      assert LowerChar(c) != c;
    }
    if 'a' <= c <= 'z' {
      assert UpperChar(c) != c;
    }
    LetterRanges(c);
  }

  lemma LetterRanges(c: char)
    ensures c in "ABCDEFGHIJKLMNOPQRSTUVWXYZ" ==> 'A' <= c <= 'Z'
    ensures c in "abcdefghijklmnopqrstuvwxyz" ==> 'a' <= c <= 'z'
  {
  }

  // -------------------------------------------------------------- exact reason

  predicate IsRuntimeError(reason: string, message: string)
  {
    reason in RUNTIME_ERRORS || (reason == REVISION_FAILED && Contains(message, CONTAINER_FAILURE_PREFIX))
  }

  predicate IsBadImageError(reason: string, message: string)
  {
    reason in IMAGE_PULL_ERRORS || (reason == REVISION_FAILED && Contains(message, FETCH_IMAGE_ERROR_PREFIX))
  }

  function ExactReason(reason: string, message: string): string
  {
    if IsRuntimeError(reason, message) then APP_RUNTIME_FAILURE
    else if IsBadImageError(reason, message) then BAD_CONTAINER_IMAGE
    else
      var missing := MissingType(reason, message);
      if missing.Some? then MISSING_PREFIX + missing.value else reason
  }

  lemma ContainsIsInfix(s: string, part: string)
    ensures Contains(s, part) <==> exists a, b :: s == a + part + b
  {
    if Contains(s, part) {
      var i :| 0 <= i <= |s| && OccursAt(s, part, i);
      assert s == s[..i] + part + s[i + |part|..];
    }
    forall a, b | s == a + part + b
      ensures Contains(s, part)
    {
      assert s[|a|..|a| + |part|] == part;
      assert OccursAt(s, part, |a|);
    }
  }

  /** Which reason is told for which one. */
  lemma ExactReasonsAre(reason: string, message: string)
    ensures var runtime := {"CrashLoopBackOff", "RunContainerError", "RunInitContainerError", "CreatePodSandboxError",
                            "ConfigPodSandboxError", "VerifyNonRootError"};
            var image := {"ImagePullBackOff", "ImageInspectError", "ErrImagePull", "ErrImageNeverPull",
                          "RegistryUnavailable", "InvalidImageName"};
            var crashed := reason == "RevisionFailed" && Contains(message, "Container failed with: ");
            var unfetched := reason == "RevisionFailed" && Contains(message, "Unable to fetch image \"");
            ExactReason(reason, message)
            == if reason in runtime || crashed then "AppRuntimeFailure"
               else if reason in image || unfetched then "BadContainerImage"
               else if MissingType(reason, message).Some? then "Missing" + MissingType(reason, message).value
               else reason
  {
  }

  lemma SecretShape(name: string)
    requires '\"' !in name && |name| <= 251
    ensures TellsMissing("secret \"" + name + "\" not found", "", "secret", name)
  {
    var m := "secret \"" + name + "\" not found";
    assert "secret \"" == "secret" + " \"";
    assert m == "" + "secret" + " \"" + name + "\" not found";
    assert forall i :: 0 <= i < |"secret"| ==> IsLetter("secret"[i]);
  }

  lemma SecretIsCapitalised()
    ensures Capitalised("secret") == "Secret"
  {
  }

  /** The usual message about a missing Secret. */
  lemma MissingSecretIsTold(name: string)
    requires '\"' !in name && |name| <= 251
    ensures ExactReason("CreateContainerConfigError", "secret \"" + name + "\" not found" + ".") == "Missing" + "Secret"
  {
    var m := "secret \"" + name + "\" not found";
    SecretShape(name);
    SecretIsCapitalised();
    TrimDotCutsOneDot(m);
    RecognisesExactlyMissingMessages("CreateContainerConfigError", m + ".", "Secret");
  }

  predicate IsKnown(reason: string)
  {
    reason in RUNTIME_ERRORS || reason in IMAGE_PULL_ERRORS || reason in RESOURCE_MISSING_ERRORS
  }

  predicate StartsAs(s: string, c: char)
  {
    s != "" && s[0] == c
  }

  lemma KnownReasonsStart(reason: string)
    requires IsKnown(reason)
    ensures !StartsAs(reason, 'A') && !StartsAs(reason, 'B') && !StartsAs(reason, 'M')
  {
  }

  /** A reason that says nothing exact is kept, and an exact reason stays what
      it is, whatever message it is combined with again. */
  lemma ExactReasonIsIdempotent(reason: string, message: string, other: string)
    ensures !IsKnown(reason) ==> ExactReason(reason, message) == reason
    ensures ExactReason(reason, message) != reason ==>
              ExactReason(ExactReason(reason, message), other) == ExactReason(reason, message)
  {
    var exact := ExactReason(reason, message);
    if exact != reason {
      assert StartsAs(exact, 'A') || StartsAs(exact, 'B') || StartsAs(exact, 'M');
      if IsKnown(exact) {
        KnownReasonsStart(exact);
      }
    }
  }

  /** The three families of reasons meet in one reason only, so the order of the
      tests decides for a failed Knative revision and for nothing else. */
  lemma FamiliesMeetInFailedRevisions(reason: string, message: string)
    ensures IsRuntimeError(reason, message) && (IsBadImageError(reason, message) || reason in RESOURCE_MISSING_ERRORS) ==>
              reason == REVISION_FAILED
    ensures IsBadImageError(reason, message) && reason in RESOURCE_MISSING_ERRORS ==> reason == REVISION_FAILED
  {
    DistinctReasons(reason);
  }

  lemma DistinctReasons(reason: string)
    ensures !(reason in RUNTIME_ERRORS && reason in IMAGE_PULL_ERRORS)
    ensures !(reason in RUNTIME_ERRORS && reason in RESOURCE_MISSING_ERRORS)
    ensures !(reason in IMAGE_PULL_ERRORS && reason in RESOURCE_MISSING_ERRORS)
  {
  }
}
