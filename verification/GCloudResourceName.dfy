/** Google Cloud resource names, "projects/{project}/{collection}/{resource}". */
module GCloudResourceName {
  import opened Wrappers
  import opened Text

  datatype ResourceName = ResourceName(project: string, collection: string, resource: string)

  datatype Error = EmptyAttributes | WrongFormat(input: string)

  const SPLIT_ELEMENTS := 4

  predicate Printable(v: ResourceName)
  {
    v.project != "" && v.collection != "" && v.resource != ""
  }

  ghost predicate WellFormed(v: ResourceName)
  {
    Printable(v) && '/' !in v.project && '/' !in v.collection && '/' !in v.resource
  }

  function Print(v: ResourceName): Result<string, Error>
  {
    if Printable(v) then Success(Join(["projects", v.project, v.collection, v.resource], '/'))
    else Failure(EmptyAttributes)
  }

  /** The first segment is never looked at. */
  function Parse(text: string): Result<ResourceName, Error>
  {
    var x := Split(text, '/');
    if |x| != SPLIT_ELEMENTS then Failure(WrongFormat(text))
    else if x[1] == "" || x[2] == "" || x[3] == "" then Failure(EmptyAttributes)
    else Success(ResourceName(x[1], x[2], x[3]))
  }

  class GCloudResourceNameObject {
    var project: string
    var collection: string
    var resource: string

    function Value(): ResourceName
      reads this
    {
      ResourceName(project, collection, resource)
    }

    method UnmarshalJSON(text: string) returns (err: Option<Error>)
      modifies this
      ensures match Parse(text)
              case Success(v) => err == None && Value() == v
              case Failure(e) => err == Some(e) && Value() == old(Value())
    {
      var sections := Split(text, '/');
      if |sections| != SPLIT_ELEMENTS {
        return Some(WrongFormat(text));
      }
      var p, t, r := sections[1], sections[2], sections[3];
      if p == "" || t == "" || r == "" {
        return Some(EmptyAttributes);
      }
      project, collection, resource := p, t, r;
      return None;
    }

    method MarshalJSON() returns (r: Result<string, Error>)
      ensures r == Print(Value())
      ensures r.Success? ==> r.value == "projects/" + project + "/" + collection + "/" + resource
    {
      if project == "" || collection == "" || resource == "" {
        return Failure(EmptyAttributes);
      }
      var b := "projects/" + project;
      assert "projects/" == "projects" + ['/'];
      JoinSnoc(["projects"], project, '/');
      assert ["projects"] + [project] == ["projects", project];
      b := b + "/" + collection;
      JoinSnoc(["projects", project], collection, '/');
      assert ["projects", project] + [collection] == ["projects", project, collection];
      b := b + "/" + resource;
      JoinSnoc(["projects", project, collection], resource, '/');
      assert ["projects", project, collection] + [resource] == ["projects", project, collection, resource];
      return Success(b);
    }
  }

  /** The printed text, and when there is none. */
  lemma PrintsAsWritten(v: ResourceName)
    ensures v.project != "" && v.collection != "" && v.resource != "" ==>
              Print(v) == Success("projects/" + v.project + "/" + v.collection + "/" + v.resource)
    ensures v.project == "" || v.collection == "" || v.resource == "" ==> Print(v) == Failure(EmptyAttributes)
  {
    assert "projects/" == "projects" + ['/'];
    JoinSnoc(["projects"], v.project, '/');
    assert ["projects"] + [v.project] == ["projects", v.project];
    JoinSnoc(["projects", v.project], v.collection, '/');
    assert ["projects", v.project] + [v.collection] == ["projects", v.project, v.collection];
    JoinSnoc(["projects", v.project, v.collection], v.resource, '/');
    assert ["projects", v.project, v.collection] + [v.resource] == ["projects", v.project, v.collection, v.resource];
  }

  /** What is read from the pieces between the slashes; the first one is not
      looked at. */
  lemma ReadsPieces(x: seq<string>)
    requires |x| >= 1 && AllFree(x, '/')
    ensures Parse(Join(x, '/'))
            == if |x| != 4 then Failure(WrongFormat(Join(x, '/')))
               else if x[1] == "" || x[2] == "" || x[3] == "" then Failure(EmptyAttributes)
               else Success(ResourceName(x[1], x[2], x[3]))
  {
    SplitJoin(x, '/');
  }

  lemma RoundTripExactlyWhenWellFormed(v: ResourceName)
    ensures (Print(v).Success? && Parse(Print(v).value) == Success(v)) <==> WellFormed(v)
  {
    if Printable(v) {
      var x := ["projects", v.project, v.collection, v.resource];
      var text := Join(x, '/');
      if WellFormed(v) {
        SplitJoin(x, '/');
      } else if Parse(text) == Success(v) {
        SplitPiecesAreFree(text, '/');
      }
    }
  }

  lemma AcceptedTextHasNormalForm(text: string)
    requires Parse(text).Success?
    ensures var v := Parse(text).value;
            Print(v).Success? && Parse(Print(v).value) == Success(v)
  {
    SplitPiecesAreFree(text, '/');
    RoundTripExactlyWhenWellFormed(Parse(text).value);
  }
}
