/**
  Mount attributes of a device, folded from the lines of a mounts file.
  */
module MountAttr {
  import opened Objects
  import opened Text

  datatype Attributes = Attributes(devPath: string, fileSystem: string, mountPoints: seq<string>)

  const EMPTY := Attributes("", "", [])

  /** One mount of the device. */
  datatype Mount = Mount(point: string, fileSystem: string)

  predicate HasPrefix(s: string, prefix: string) {
    |prefix| <= |s| && s[..|prefix|] == prefix
  }

  /** Does the line begin with the device? */
  predicate Mentions(line: string, devPath: string) {
    line != "" && Split(line, ' ')[0] == devPath
  }

  /** Only lines that start with /dev are looked at. */
  predicate Names(line: string, devPath: string) {
    HasPrefix(line, "/dev") && Mentions(line, devPath)
  }

  /** A line that mentions the device also has a mount point and a file system. */
  predicate Complete(line: string, devPath: string) {
    Mentions(line, devPath) ==> |Split(line, ' ')| >= 3
  }

  predicate WellFormed(line: string, devPath: string) {
    HasPrefix(line, "/dev") ==> Complete(line, devPath)
  }

  function MountIn(line: string, devPath: string): (r: Option<Mount>)
    requires Complete(line, devPath)
    ensures r.Some? == Mentions(line, devPath)
  {
    var parts := Split(line, ' ');
    if Mentions(line, devPath) then Some(Mount(parts[1], parts[2])) else None
  }

  /** Of a line that names the device, the second field is the mount point and the third the file system. */
  lemma MountLine(parts: seq<string>)
    requires |parts| >= 3 && parts[0] != "" && forall i :: 0 <= i < |parts| ==> ' ' !in parts[i]
    ensures var line := Join(parts, ' ');
            Complete(line, parts[0]) && MountIn(line, parts[0]) == Some(Mount(parts[1], parts[2])) &&
            (HasPrefix(parts[0], "/dev") ==> Names(line, parts[0]))
  {
    assert Join(parts, ' ') == parts[0] + " " + Join(parts[1..], ' ');
    hide Join, Split;
    SplitJoined(parts, ' ');
  }

  /** A line of another device does not count, also not one whose path this one begins. */
  lemma OtherLine(parts: seq<string>, devPath: string)
    requires parts != [] && parts[0] != devPath && forall i :: 0 <= i < |parts| ==> ' ' !in parts[i]
    ensures !Names(Join(parts, ' '), devPath)
  {
    SplitJoined(parts, ' ');
  }

  /** The mounts of the device, in the order of the lines. */
  function MountsOf(lines: seq<string>, devPath: string): (r: seq<Mount>)
    requires forall i :: 0 <= i < |lines| ==> WellFormed(lines[i], devPath)
    ensures r != [] <==> exists i :: 0 <= i < |lines| && Names(lines[i], devPath)
  {
    if lines == [] then []
    else
      var line := lines[|lines| - 1];
      assert WellFormed(line, devPath);
      MountsOf(lines[..|lines| - 1], devPath) + if Names(line, devPath) then [MountIn(line, devPath).value] else []
  }

  /** The first file system that has a name. */
  function FirstFileSystem(ms: seq<Mount>): (r: string)
    ensures r != "" ==> exists i :: 0 <= i < |ms| && ms[i].fileSystem == r &&
                                  forall j :: 0 <= j < i ==> ms[j].fileSystem == ""
    ensures r == "" ==> forall i :: 0 <= i < |ms| ==> ms[i].fileSystem == ""
  {
    if ms == [] then ""
    else
      var earlier := FirstFileSystem(ms[..|ms| - 1]);
      if earlier != "" then earlier else ms[|ms| - 1].fileSystem
  }

  /** The mount points with this file system, in order. */
  function PointsWith(ms: seq<Mount>, fs: string): (r: seq<string>)
    ensures forall p :: p in r <==> exists i :: 0 <= i < |ms| && ms[i] == Mount(p, fs)
  {
    if ms == [] then []
    else PointsWith(ms[..|ms| - 1], fs) + if ms[|ms| - 1].fileSystem == fs then [ms[|ms| - 1].point] else []
  }

  /** What the fold should give. */
  function Expected(ms: seq<Mount>): Attributes {
    var fs := FirstFileSystem(ms);
    Attributes("", fs, if fs == "" then [] else PointsWith(ms, fs))
  }

  /** Add the attributes of a line, if they agree with what is known so far. */
  method Merge(ma: Attributes, mb: Attributes) returns (r: Attributes)
    ensures r.devPath == (if ma.devPath != "" then ma.devPath else mb.devPath)
    ensures r.devPath != mb.devPath ==> r == ma
    ensures ma.fileSystem != "" ==> r.fileSystem == ma.fileSystem
    ensures r.devPath == mb.devPath && ma.fileSystem == "" ==> r.fileSystem == mb.fileSystem
    ensures r.devPath == mb.devPath && r.fileSystem == mb.fileSystem != "" ==>
      r.mountPoints == ma.mountPoints + mb.mountPoints
    ensures !(r.devPath == mb.devPath && r.fileSystem == mb.fileSystem != "") ==> r.mountPoints == ma.mountPoints
  {
    r := ma;
    if r.devPath == "" {
      r := r.(devPath := mb.devPath);
    }
    if r.devPath != mb.devPath {
      return;
    }
    if r.fileSystem == "" {
      r := r.(fileSystem := mb.fileSystem);
    }
    if r.fileSystem != "" && r.fileSystem == mb.fileSystem {
      r := r.(mountPoints := r.mountPoints + mb.mountPoints);
    }
  }

  /** Parse one line for the device. */
  method GetMountName(line: string, devPath: string) returns (r: Attributes, ok: bool)
    requires Complete(line, devPath)
    ensures ok == MountIn(line, devPath).Some?
    ensures r == if ok
      then Attributes("", MountIn(line, devPath).value.fileSystem, [MountIn(line, devPath).value.point]) else EMPTY
  {
    r, ok := EMPTY, false;
    if |line| == 0 {
      return;
    }
    var parts := Split(line, ' ');
    if parts[0] == devPath {
      r := r.(mountPoints := [parts[1]]);
      r := r.(fileSystem := parts[2]);
      ok := true;
    }
  }

  /**
    Fold the lines of a mounts file: something is found exactly if a line names the
    device; the file system is the first one named, and the mount points are those of
    the device's lines with that file system, in order.
    */
  method GetDeviceMountAttr(lines: seq<string>, devPath: string) returns (r: Attributes, found: bool)
    requires forall i :: 0 <= i < |lines| ==> WellFormed(lines[i], devPath)
    ensures found <==> exists i :: 0 <= i < |lines| && Names(lines[i], devPath)
    ensures r == Expected(MountsOf(lines, devPath))
  {
    hide *;
    r, found := EMPTY, false;
    NothingYet(lines[..0], devPath);
    for i := 0 to |lines|
      invariant r.devPath == ""
      invariant found == (MountsOf(lines[..i], devPath) != []) && r == Expected(MountsOf(lines[..i], devPath))
    {
      MountsNext(lines, devPath, i);
      var line := lines[i];
      if !HasPrefix(line, "/dev") {
        continue;
      }
      var attr, ok := GetMountName(line, devPath);
      if ok {
        found := true;
        ExpectedNext(MountsOf(lines[..i], devPath), Mount(attr.mountPoints[0], attr.fileSystem));
        r := Merge(r, attr);
      }
    }
    assert lines[..|lines|] == lines;
  }

  lemma MountsNext(lines: seq<string>, devPath: string, n: nat)
    requires n < |lines| && forall i :: 0 <= i < |lines| ==> WellFormed(lines[i], devPath)
    ensures HasPrefix(lines[n], "/dev") ==> Complete(lines[n], devPath)
    ensures MountsOf(lines[..n + 1], devPath) ==
      if HasPrefix(lines[n], "/dev") && MountIn(lines[n], devPath).Some?
        then MountsOf(lines[..n], devPath) + [MountIn(lines[n], devPath).value]
      else MountsOf(lines[..n], devPath)
  {
    assert lines[..n + 1][..n] == lines[..n];
  }

  lemma NothingYet(lines: seq<string>, devPath: string)
    requires lines == []
    ensures MountsOf(lines, devPath) == [] && Expected(MountsOf(lines, devPath)) == EMPTY && EMPTY.devPath == ""
  {}

  lemma ExpectedNext(ms: seq<Mount>, m: Mount)
    ensures var was := Expected(ms);
            var fs := if was.fileSystem == "" then m.fileSystem else was.fileSystem;
            Expected(ms + [m]) == Attributes("", fs, was.mountPoints + if fs != "" && fs == m.fileSystem then [m.point]
              else [])
  {
    assert (ms + [m])[..|ms|] == ms;
    if FirstFileSystem(ms) == "" { NoPoints(ms, m.fileSystem); }
  }

  /** A file system with a name has no mount points among mounts without one. */
  lemma {:induction false} NoPoints(ms: seq<Mount>, fs: string)
    requires forall i :: 0 <= i < |ms| ==> ms[i].fileSystem == ""
    ensures fs != "" ==> PointsWith(ms, fs) == []
  {
    if ms != [] { NoPoints(ms[..|ms| - 1], fs); }
  }
}
