/** The '..' test on socket paths (src/unix/unix_socket.cpp) agrees with splitting the path into its components. */
module SocketPath {

  predicate MiddleAt(path: string, i: nat) {
    i + 4 <= |path| && path[i..i + 4] == "/../"
  }

  /** The four patterns that the code looks for. */
  predicate PathContainsDotDot(path: string) {
    || path == ".."
    || "../" <= path
    || (exists i :: 0 <= i < |path| && MiddleAt(path, i))
    || (|path| >= 3 && path[|path| - 3..] == "/..")
  }

  /** The components of a path: the pieces between its slashes. */
  function Components(path: string): (r: seq<string>)
    ensures |r| > 0
  {
    if path == "" then [""]
    else
      var rest := Components(path[1..]);
      if path[0] == '/' then [""] + rest else [[path[0]] + rest[0]] + rest[1..]
  }

  /** Position `i` starts two dots that are followed by a slash or the end. */
  predicate DotsAt(path: string, i: nat) {
    i + 2 <= |path| && path[i] == '.' && path[i + 1] == '.' && (i + 2 == |path| || path[i + 2] == '/')
  }

  /** Position `i` starts a component. */
  predicate StartsAt(path: string, i: nat) {
    i == 0 || (i <= |path| && path[i - 1] == '/')
  }

  lemma HeadEmpty(path: string)
    ensures Components(path)[0] == "" <==> path == "" || path[0] == '/'
  {
  }

  lemma HeadDot(path: string)
    ensures Components(path)[0] == "." <==> path != "" && path[0] == '.' && (|path| == 1 || path[1] == '/')
  {
    if path != "" && path[0] != '/' {
      HeadEmpty(path[1..]);
      var head := Components(path[1..])[0];
      assert Components(path)[0] == [path[0]] + head;
      assert ([path[0]] + head)[1..] == head;
    }
  }

  lemma HeadDots(path: string)
    ensures Components(path)[0] == ".." <==> DotsAt(path, 0)
  {
    if path != "" && path[0] != '/' {
      HeadDot(path[1..]);
      var head := Components(path[1..])[0];
      assert Components(path)[0] == [path[0]] + head;
      assert ([path[0]] + head)[0] == path[0] && ([path[0]] + head)[1..] == head && ".."[1..] == ".";
      assert DotsAt(path, 0) <==> path[0] == '.' && head == ".";
      assert path[0] == '.' && head == "." ==> [path[0]] + head == "..";
    }
  }

  ghost predicate LaterDots(path: string) {
    exists i :: 0 < i && StartsAt(path, i) && DotsAt(path, i)
  }

  lemma LaterDotsStep(path: string)
    requires path != ""
    ensures LaterDots(path) <==> LaterDots(path[1..]) || (path[0] == '/' && DotsAt(path[1..], 0))
  {
    var rest := path[1..];
    assert forall i :: 0 <= i ==> (DotsAt(path, i + 1) <==> DotsAt(rest, i));
    assert forall i :: 0 < i ==> (StartsAt(path, i + 1) <==> StartsAt(rest, i));
    if LaterDots(path) {
      var i :| 0 < i && StartsAt(path, i) && DotsAt(path, i);
      assert DotsAt(rest, i - 1);
      assert i > 1 ==> StartsAt(rest, i - 1);
    }
    if LaterDots(rest) {
      var i :| 0 < i && StartsAt(rest, i) && DotsAt(rest, i);
      assert StartsAt(path, i + 1) && DotsAt(path, i + 1);
    }
    if path[0] == '/' && DotsAt(rest, 0) {
      assert StartsAt(path, 1) && DotsAt(path, 1);
    }
  }

  lemma {:induction false} TailDots(path: string)
    ensures ".." in Components(path)[1..] <==> LaterDots(path)
  {
    if path != "" {
      var rest := Components(path[1..]);
      TailDots(path[1..]);
      HeadDots(path[1..]);
      LaterDotsStep(path);
      assert rest == [rest[0]] + rest[1..];
      assert Components(path)[1..] == if path[0] == '/' then rest else rest[1..];
    }
  }

  lemma MiddleIsDots(path: string, i: nat)
    ensures MiddleAt(path, i) <==> i + 3 < |path| && StartsAt(path, i + 1) && DotsAt(path, i + 1)
  {
    if i + 4 <= |path| {
      var t := path[i..i + 4];
      assert t == [path[i], path[i + 1], path[i + 2], path[i + 3]];
    }
  }

  lemma EndIsDots(path: string)
    requires |path| >= 3
    ensures path[|path| - 3..] == "/.." <==> StartsAt(path, |path| - 2) && DotsAt(path, |path| - 2)
  {
    assert path[|path| - 3..] == [path[|path| - 3], path[|path| - 2], path[|path| - 1]];
  }

  lemma StartIsDots(path: string)
    ensures path == ".." || "../" <= path <==> DotsAt(path, 0)
  {
    if |path| == 2 {
      assert path == [path[0], path[1]];
    } else if |path| >= 3 {
      assert path[..3] == [path[0], path[1], path[2]];
    }
  }

  lemma PatternsAreDots(path: string)
    ensures PathContainsDotDot(path) <==> DotsAt(path, 0) || LaterDots(path)
  {
    StartIsDots(path);
    if |path| >= 3 {
      EndIsDots(path);
    }
    forall i: nat ensures MiddleAt(path, i) <==> i + 3 < |path| && StartsAt(path, i + 1) && DotsAt(path, i + 1) {
      MiddleIsDots(path, i);
    }
    if LaterDots(path) {
      var i :| 0 < i && StartsAt(path, i) && DotsAt(path, i);
      assert i + 2 == |path| || MiddleAt(path, i - 1);
    }
    hide MiddleAt;
  }

  /** The four-pattern test is true of a path exactly when one of its components is "..". */
  lemma DotDotIffComponent(path: string)
    ensures PathContainsDotDot(path) <==> ".." in Components(path)
  {
    PatternsAreDots(path);
    HeadDots(path);
    TailDots(path);
    var c := Components(path);
    assert c == [c[0]] + c[1..];
  }
}
