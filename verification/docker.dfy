/**
 * The container identifier read from a control-group file
 * (src/worker/docker.rs, `parse_docker_container_id`): the first line must
 * be "hierarchy:controllers:path" with exactly one "/docker/" in the path,
 * and the identifier is the first twelve characters after it.
 */
module DockerIds {
  import opened Wrappers
  import opened Strings

  const DockerMarker: string := "/docker/"
  const ShortIdLength: nat := 12

  /** `String::truncate`: at most `n` characters, a prefix of `s`. */
  function Truncate(s: string, n: nat): (r: string)
    ensures |r| <= n && StartsWith(s, r)
    ensures |s| <= n ==> r == s
    ensures |s| > n ==> |r| == n
  {
    if |s| <= n then s else s[..n]
  }

  /** `parse_docker_container_id`. */
  function ParseDockerContainerId(content: string): (r: Option<string>)
    ensures r.Some? ==> |r.value| <= ShortIdLength
    ensures r.Some? <==>
      |Split(Split(content, "\n")[0], ":")| == 3 &&
      |Split(Split(Split(content, "\n")[0], ":")[2], DockerMarker)| == 2
  {
    var lines := Split(content, "\n");
    var items := Split(lines[0], ":");
    if |items| != 3 then None
    else
      var longIdentifier := Split(items[2], DockerMarker);
      if |longIdentifier| != 2 then None
      else Some(Truncate(longIdentifier[1], ShortIdLength))
  }

  /** Text on one line with no field separator. */
  predicate Plain(s: string) {
    forall k :: 0 <= k < |s| ==> s[k] != ':' && s[k] != '\n'
  }

  lemma PlainFree(s: string)
    requires Plain(s)
    ensures !Contains(s, ":") && !Contains(s, "\n")
  {
    CharsFree(s, ":");
    CharsFree(s, "\n");
  }

  /** A control-group line naming a Docker container. */
  function CgroupLine(hierarchy: string, controllers: string, path: string, id: string): string {
    hierarchy + ":" + controllers + ":" + (path + DockerMarker + id)
  }

  /**
   * A file whose first line names a container gives the first twelve
   * characters of its identifier, whatever follows that line.
   */
  lemma ReadsCgroupLine(hierarchy: string, controllers: string, path: string, id: string, rest: string)
    requires Plain(hierarchy) && Plain(controllers) && Plain(path) && Plain(id)
    requires !Contains(path + DockerMarker[..|DockerMarker| - 1], DockerMarker) && !Contains(id, DockerMarker)
    ensures ParseDockerContainerId(CgroupLine(hierarchy, controllers, path, id) + "\n" + rest) == Some(Truncate(id, ShortIdLength))
  {
    var tail := path + DockerMarker + id;
    var line := CgroupLine(hierarchy, controllers, path, id);
    TailPlain(path, id);
    LinePlain(hierarchy, controllers, tail);
    CutAtFirst(line, "\n", rest);
    assert Split(line + "\n" + rest, "\n")[0] == line;
    LineFields(hierarchy, controllers, tail);
    SplitAtFirst(path, DockerMarker, id);
    SplitFree(id, DockerMarker);
  }

  lemma TailPlain(path: string, id: string)
    requires Plain(path) && Plain(id)
    ensures Plain(path + DockerMarker + id)
  {
    assert Plain(DockerMarker);
  }

  lemma LinePlain(hierarchy: string, controllers: string, tail: string)
    requires Plain(hierarchy) && Plain(controllers) && Plain(tail)
    ensures !Contains(hierarchy + ":" + controllers + ":" + tail, "\n")
  {
    var line := hierarchy + ":" + controllers + ":" + tail;
    assert forall k :: 0 <= k < |line| ==> line[k] != '\n';
    CharsFree(line, "\n");
  }

  lemma LineFields(hierarchy: string, controllers: string, tail: string)
    requires Plain(hierarchy) && Plain(controllers) && Plain(tail)
    ensures Split(hierarchy + ":" + controllers + ":" + tail, ":") == [hierarchy, controllers, tail]
  {
    PlainFree(hierarchy);
    PlainFree(controllers);
    PlainFree(tail);
    var items := [hierarchy, controllers, tail];
    assert FreeOf(items, ":");
    JoinThree(hierarchy, controllers, tail, ":");
    SplitJoin(items, ":");
  }

  lemma JoinThree(a: string, b: string, c: string, sep: string)
    ensures Join([a, b, c], sep) == a + sep + b + sep + c
  {
    assert [a, b, c][1..] == [b, c] && [b, c][1..] == [c];
    assert Join([c], sep) == c;
    assert Join([b, c], sep) == b + sep + c;
  }

  /** The test vectors of src/worker/docker.rs: an empty file and an empty first line. */
  lemma EmptyLineRejected()
    ensures ParseDockerContainerId("") == None
    ensures ParseDockerContainerId("\n") == None
  {
    assert Split("", ":") == [""];
    CutAtFirst("", "\n", "");
    assert Split("\n", "\n")[0] == "";
  }

  /** The test vector "a:b:c\n": three fields but no "/docker/". */
  lemma NoMarkerRejected()
    ensures ParseDockerContainerId("a:b:c\n") == None
  {
    FirstLineOfTest();
    FieldsOfTest();
    NoMarkerInField();
  }

  lemma FirstLineOfTest()
    ensures Split("a:b:c\n", "\n")[0] == "a:b:c"
  {
    var line := "a:b:c";
    CharsFree(line, "\n");
    CutAtFirst(line, "\n", "");
    assert line + "\n" + "" == "a:b:c\n";
  }

  lemma FieldsOfTest()
    ensures Split("a:b:c", ":") == ["a", "b", "c"]
  {
    LineFields("a", "b", "c");
    assert "a" + ":" + "b" + ":" + "c" == "a:b:c";
  }

  lemma NoMarkerInField()
    ensures |Split("c", DockerMarker)| == 1
  {
    assert IndexOf("c", DockerMarker) == None;
  }
}
