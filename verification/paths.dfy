/**
 * Slash-separated paths as Go's `path` package treats them: `Clean` reduces a path to
 * its shortest equivalent, and `Join` of two non-empty elements is the cleaned path
 * with a slash between them.
 */
module Paths {
  import opened Text

  /** An element kept by cleaning as it is: neither empty, nor ".", nor "..", nor holding a slash. */
  predicate Plain(e: string) {
    e != "" && e != "." && e != ".." && '/' !in e
  }

  /**
   * Elements in cleaned form: every element is plain or "..", the ".." elements all come
   * first, and a rooted path has none (nothing lies above the root).
   */
  predicate Cleaned(elems: seq<string>, rooted: bool) {
    && (forall i :: 0 <= i < |elems| ==> Plain(elems[i]) || elems[i] == "..")
    && (forall i, j :: 0 <= i < j < |elems| && elems[j] == ".." ==> elems[i] == "..")
    && (rooted ==> forall i :: 0 <= i < |elems| ==> elems[i] != "..")
  }

  /**
   * One element of the input added to the elements cleaned so far: an empty element or
   * "." is dropped; ".." removes the last element when that is not itself "..", is
   * dropped at the root, and is kept otherwise; any other element is appended.
   */
  function Step(done: seq<string>, e: string, rooted: bool): seq<string> {
    if e == "" || e == "." then done
    else if e == ".." then
      if |done| > 0 && done[|done| - 1] != ".." then done[..|done| - 1]
      else if rooted then done
      else done + [".."]
    else done + [e]
  }

  /** The elements of `rest` added one by one, left to right, to those cleaned so far. */
  function CleanFrom(done: seq<string>, rest: seq<string>, rooted: bool): seq<string>
    decreases |rest|
  {
    if |rest| == 0 then done else CleanFrom(Step(done, rest[0], rooted), rest[1..], rooted)
  }

  /** `path.Clean`: the cleaned elements joined by slashes, after a slash when rooted; "." when nothing is left. */
  function Clean(p: string): string {
    var rooted := |p| > 0 && p[0] == '/';
    var body := Join(CleanFrom([], Split(p, '/'), rooted), "/");
    if rooted then "/" + body else if body == "" then "." else body
  }

  /** `path.Join` of two elements the first of which is not empty. */
  function JoinPath(dir: string, name: string): string
    requires |dir| > 0
  {
    Clean(dir + "/" + name)
  }

  /** The directory followed by a plain name, the way Join promises it: no slash is doubled and "." disappears. */
  function Under(dir: string, name: string): string {
    if dir == "." then name else if dir == "/" then "/" + name else dir + "/" + name
  }

  // ---------------------------------------------------------------------------------
  // Properties

  /** No piece of a split holds the separator. */
  lemma {:induction false} SplitPieces(s: string, sep: char)
    ensures forall i :: 0 <= i < |Split(s, sep)| ==> sep !in Split(s, sep)[i]
    decreases |s|
  {
    if |s| > 0 {
      SplitPieces(s[1..], sep);
    }
  }

  /** Cleaning keeps the cleaned form, whatever elements it is given. */
  lemma {:induction false} CleanFromCleaned(done: seq<string>, rest: seq<string>, rooted: bool)
    requires Cleaned(done, rooted)
    requires forall i :: 0 <= i < |rest| ==> '/' !in rest[i]
    ensures Cleaned(CleanFrom(done, rest, rooted), rooted)
    decreases |rest|
  {
    if |rest| > 0 {
      var next := Step(done, rest[0], rooted);
      assert Cleaned(next, rooted) by {
        if rest[0] == ".." && |done| > 0 && done[|done| - 1] != ".." {
          assert next == done[..|done| - 1];
        } else if rest[0] == ".." && !rooted {
          assert forall i :: 0 <= i < |done| ==> done[i] == "..";
        }
      }
      CleanFromCleaned(next, rest[1..], rooted);
    }
  }

  /** Elements already in cleaned form pass through cleaning unchanged. */
  lemma {:induction false} CleanFromClean(done: seq<string>, rest: seq<string>, rooted: bool)
    requires Cleaned(done + rest, rooted)
    ensures CleanFrom(done, rest, rooted) == done + rest
    decreases |rest|
  {
    if |rest| > 0 {
      var all := done + rest;
      assert all[|done|] == rest[0];
      if rest[0] == ".." {
        if |done| > 0 {
          assert all[|done| - 1] == done[|done| - 1];
        }
      }
      assert Step(done, rest[0], rooted) == done + [rest[0]];
      assert (done + [rest[0]]) + rest[1..] == all;
      CleanFromClean(done + [rest[0]], rest[1..], rooted);
    }
  }

  /** Cleaning one more plain element appends it. */
  lemma {:induction false} CleanFromPlain(done: seq<string>, rest: seq<string>, name: string, rooted: bool)
    requires Plain(name)
    ensures CleanFrom(done, rest + [name], rooted) == CleanFrom(done, rest, rooted) + [name]
    decreases |rest|
  {
    if |rest| == 0 {
      assert rest + [name] == [name];
    } else {
      assert (rest + [name])[1..] == rest[1..] + [name];
      CleanFromPlain(Step(done, rest[0], rooted), rest[1..], name, rooted);
    }
  }

  /** Plain elements joined by slashes split back into themselves. */
  lemma {:induction false} SplitJoined(elems: seq<string>)
    requires |elems| >= 1 && forall i :: 0 <= i < |elems| ==> '/' !in elems[i]
    ensures Split(Join(elems, "/"), '/') == elems
    decreases |elems|
  {
    var n := |elems| - 1;
    if n == 0 {
      SplitWithout(elems[0], '/');
    } else {
      SplitJoined(elems[..n]);
      SplitWithout(elems[n], '/');
      SplitJoin(Join(elems[..n], "/"), '/', elems[n]);
      assert elems[..n] + [elems[n]] == elems;
    }
  }

  /** Joining non-empty elements gives a non-empty string, longer than one character when there are two or more. */
  lemma JoinedLength(elems: seq<string>)
    requires |elems| >= 1 && forall i :: 0 <= i < |elems| ==> elems[i] != ""
    ensures |Join(elems, "/")| >= 1
    ensures |elems| >= 2 ==> |Join(elems, "/")| >= 3
  {
  }

  /** Cleaning a cleaned path changes nothing. */
  lemma CleanIdempotent(p: string)
    ensures Clean(Clean(p)) == Clean(p)
  {
    var rooted := |p| > 0 && p[0] == '/';
    SplitPieces(p, '/');
    CleanFromCleaned([], Split(p, '/'), rooted);
    var elems := CleanFrom([], Split(p, '/'), rooted);
    if |elems| == 0 {
      CleanBare();
    } else {
      JoinedLength(elems);
      if rooted {
        CleanRootedJoined(elems);
      } else {
        CleanRelativeJoined(elems);
      }
    }
  }

  /** The root and "." are clean. */
  lemma CleanBare()
    ensures Clean("/") == "/" && Clean(".") == "."
  {
    var c := "/";
    assert c[1..] == "";
    assert Split(c, '/') == ["", ""];
    assert ["", ""][1..] == [""];
    assert CleanFrom([], [""], true) == [];
    var d := ".";
    SplitWithout(d, '/');
    assert ["."][1..] == [];
    assert CleanFrom([], ["."], false) == [];
  }

  /** Cleaned elements under the root, at least one, joined behind a slash, are clean. */
  lemma CleanRootedJoined(elems: seq<string>)
    requires |elems| >= 1 && Cleaned(elems, true)
    ensures Clean("/" + Join(elems, "/")) == "/" + Join(elems, "/")
  {
    var body := Join(elems, "/");
    var c := "/" + body;
    assert c[0] == '/' && c[1..] == body;
    assert Split(c, '/') == [""] + elems by {
      SplitJoined(elems);
    }
    assert ([""] + elems)[1..] == elems;
    assert CleanFrom([], [""] + elems, true) == CleanFrom([], elems, true);
    assert [] + elems == elems;
    CleanFromClean([], elems, true);
  }

  /** Cleaned elements without a root, at least one, joined, are clean. */
  lemma CleanRelativeJoined(elems: seq<string>)
    requires |elems| >= 1 && Cleaned(elems, false)
    ensures Clean(Join(elems, "/")) == Join(elems, "/")
  {
    var c := Join(elems, "/");
    JoinedLength(elems);
    assert Split(c, '/') == elems by {
      SplitJoined(elems);
    }
    assert c[0] != '/' by {
      SplitFirst(c, '/');
    }
    assert [] + elems == elems;
    CleanFromClean([], elems, false);
  }

  /** The first piece of a split is a prefix of the string. */
  lemma {:induction false} SplitFirst(s: string, sep: char)
    requires |Split(s, sep)[0]| > 0
    ensures s[0] == Split(s, sep)[0][0]
  {
  }

  /**
   * Joining a non-empty directory and a plain name puts the name under the cleaned
   * directory: the name follows the cleaned directory after one slash, and a directory
   * that cleans to "." adds nothing.
   */
  lemma JoinPathUnder(dir: string, name: string)
    requires |dir| > 0 && Plain(name)
    ensures JoinPath(dir, name) == Under(Clean(dir), name)
  {
    var rooted := dir[0] == '/';
    assert (dir + "/" + name)[0] == dir[0];
    JoinPathElements(dir, name);
    SplitPieces(dir, '/');
    CleanFromCleaned([], Split(dir, '/'), rooted);
    if rooted {
      RootedUnder(CleanFrom([], Split(dir, '/'), rooted), name);
    } else {
      RelativeUnder(CleanFrom([], Split(dir, '/'), rooted), name);
    }
  }

  /** Under the root, a name follows the joined elements after one slash. */
  lemma RootedUnder(elems: seq<string>, name: string)
    requires Cleaned(elems, true) && Plain(name)
    ensures "/" + Join(elems + [name], "/") == Under("/" + Join(elems, "/"), name)
  {
    var body := Join(elems, "/");
    if |elems| == 0 {
      assert elems + [name] == [name];
      assert "/" + body == "/";
    } else {
      JoinLast(elems, name, "/");
      assert elems[0] != "";
      JoinedLength(elems);
      assert |"/" + body| >= 2;
    }
  }

  /** Without a root, a name follows the joined elements after one slash, or stands alone. */
  lemma RelativeUnder(elems: seq<string>, name: string)
    requires Cleaned(elems, false) && Plain(name)
    ensures Join(elems + [name], "/") == Under(if Join(elems, "/") == "" then "." else Join(elems, "/"), name)
  {
    if |elems| == 0 {
      assert elems + [name] == [name];
    } else {
      var body := Join(elems, "/");
      JoinLast(elems, name, "/");
      NamedBody(elems);
      assert Under(body, name) == body + "/" + name;
    }
  }

  /** Cleaned elements, at least one, join into neither "", "." nor "/". */
  lemma NamedBody(elems: seq<string>)
    requires |elems| >= 1 && Cleaned(elems, false)
    ensures Join(elems, "/") != "" && Join(elems, "/") != "." && Join(elems, "/") != "/"
  {
    JoinedLength(elems);
    if |elems| == 1 {
      var e := elems[0];
      assert Join(elems, "/") == e;
      assert Plain(e) || e == "..";
      if e == ".." {
        assert |e| == 2;
      } else {
        assert e != "." && '/' !in e;
      }
    }
  }

  /** Cleaning the joined path keeps the directory's cleaned elements and appends the name. */
  lemma JoinPathElements(dir: string, name: string)
    requires |dir| > 0 && Plain(name)
    ensures CleanFrom([], Split(dir + "/" + name, '/'), dir[0] == '/') == CleanFrom([], Split(dir, '/'), dir[0] == '/') + [name]
  {
    var s := dir + "/" + name;
    var rooted := dir[0] == '/';
    assert s[0] == dir[0];
    SplitWithout(name, '/');
    SplitJoin(dir, '/', name);
    assert Split(s, '/') == Split(dir, '/') + [name];
    CleanFromPlain([], Split(dir, '/'), name, rooted);
  }
}
