/**
 * `getRoot`: the relative path that climbs from a directory back to the
 * project root, one `../` for every `/` in the directory's path. The icon
 * font stylesheet partial is written relative to the font output folder,
 * so its target path starts with this prefix.
 */
module PathDepth {
  import Config

  /** `(path.match(/\//g) || []).length`: the number of `/` characters (zero when there is no match). */
  function CountSlashes(p: string): nat
  {
    if p == [] then 0
    else (if p[0] == '/' then 1 else 0) + CountSlashes(p[1..])
  }

  /** `k` copies of `s`, one after another. */
  function Repeat(s: string, k: nat): string
  {
    if k == 0 then "" else s + Repeat(s, k - 1)
  }

  /** The value `getRoot` returns: as many `../` as the path has `/`. */
  function BackPath(p: string): string
  {
    Repeat("../", CountSlashes(p))
  }

  /** `getRoot`: builds the back path by appending `../` once per separator. */
  method GetRoot(path: string) returns (backPath: string)
    ensures backPath == BackPath(path)
    ensures |backPath| == 3 * CountSlashes(path)
    ensures forall j :: 0 <= j < |backPath| ==> backPath[j] == "../"[j % 3]
    ensures backPath == "" <==> '/' !in path
  {
    backPath := "";
    var depth := CountSlashes(path);
    var i := 0;
    while i < depth
      invariant 0 <= i <= depth
      invariant backPath == Repeat("../", i)
    {
      backPath := backPath + "../";
      RepeatAppend("../", i);
      i := i + 1;
    }
    RepeatShape("../", depth);
    NoSlashIffZero(path);
  }

  /** Appending one more copy on the right is the same as one more copy on the left. */
  lemma {:induction false} RepeatAppend(s: string, k: nat)
    ensures Repeat(s, k) + s == Repeat(s, k + 1)
  {
    if k > 0 {
      RepeatAppend(s, k - 1);
      assert Repeat(s, k) + s == s + (Repeat(s, k - 1) + s);
    }
  }

  /** `k` copies of a three-character string have length `3k` and repeat it character by character. */
  lemma {:induction false} RepeatShape(s: string, k: nat)
    requires |s| == 3
    ensures |Repeat(s, k)| == 3 * k
    ensures forall j :: 0 <= j < 3 * k ==> Repeat(s, k)[j] == s[j % 3]
  {
    if k > 0 {
      RepeatShape(s, k - 1);
      var r := Repeat(s, k);
      assert r == s + Repeat(s, k - 1);
      forall j | 0 <= j < 3 * k
        ensures r[j] == s[j % 3]
      {
        if j >= 3 {
          assert r[j] == Repeat(s, k - 1)[j - 3];
          assert (j - 3) % 3 == j % 3;
        }
      }
    }
  }

  /** The count is the number of times `/` occurs in the path, whatever the order of its characters. */
  lemma {:induction false} CountIsMultiplicity(p: string)
    ensures CountSlashes(p) == multiset(p)['/']
  {
    if p != [] {
      CountIsMultiplicity(p[1..]);
      assert p == [p[0]] + p[1..];
      assert multiset(p) == multiset([p[0]]) + multiset(p[1..]);
    }
  }

  /** The count of a concatenation is the sum of the counts. */
  lemma {:induction false} CountConcat(a: string, b: string)
    ensures CountSlashes(a + b) == CountSlashes(a) + CountSlashes(b)
  {
    if a == [] {
      assert a + b == b;
    } else {
      CountConcat(a[1..], b);
      assert a + b != [] && (a + b)[0] == a[0];
      assert (a + b)[1..] == a[1..] + b;
      assert CountSlashes(a + b) == (if a[0] == '/' then 1 else 0) + CountSlashes(a[1..] + b);
    }
  }

  /** No separator gives depth zero (the `|| []` fallback), and depth zero means no separator. */
  lemma {:induction false} NoSlashIffZero(p: string)
    ensures CountSlashes(p) == 0 <==> '/' !in p
  {
    if p != [] {
      NoSlashIffZero(p[1..]);
      assert p == [p[0]] + p[1..];
    }
  }

  /** The back path is empty exactly when the path has no `/`. */
  lemma EmptyBackPathIffNoSlash(p: string)
    ensures BackPath(p) == "" <==> '/' !in p
  {
    NoSlashIffZero(p);
    RepeatShape("../", CountSlashes(p));
  }

  /** The icon font output folder `public/fonts/` is two levels deep. */
  lemma FontFolderBackPath()
    ensures BackPath(Config.IconFontDest) == "../../"
  {
    assert CountSlashes(Config.IconFontDest) == 2 by {
      JoinDepth(["public", "fonts"]);
      assert Join(["public", "fonts"]) == Config.IconFontDest by {
        assert Join(["public", "fonts"][1..]) == Join(["fonts"]);
        assert Join(["fonts"]) == "fonts" + "/" + Join([]);
      }
    }
    assert Repeat("../", 2) == "../../" by {
      assert Repeat("../", 2) == "../" + ("../" + "");
    }
  }

  // Directories as lists of folder names, and paths relative to them.

  /** The path of a folder given by its names: each name followed by `/`, as the gulpfile writes its folders. */
  function Join(dirs: seq<string>): string
  {
    if dirs == [] then "" else dirs[0] + "/" + Join(dirs[1..])
  }

  /** The folder reached from `dir` by following the leading `../` steps of `rel`. */
  function Ascend(dir: seq<string>, rel: string): seq<string>
  {
    if |dir| > 0 && |rel| >= 3 && rel[..3] == "../" then Ascend(dir[..|dir| - 1], rel[3..])
    else dir
  }

  /** A folder name is a single path segment. */
  predicate Segments(dirs: seq<string>)
  {
    forall i :: 0 <= i < |dirs| ==> '/' !in dirs[i]
  }

  /** The depth of a folder written with trailing `/` is the number of its names. */
  lemma {:induction false} JoinDepth(dirs: seq<string>)
    requires Segments(dirs)
    ensures CountSlashes(Join(dirs)) == |dirs|
  {
    if dirs != [] {
      JoinDepth(dirs[1..]);
      NoSlashIffZero(dirs[0]);
      CountConcat(dirs[0], "/");
      CountConcat(dirs[0] + "/", Join(dirs[1..]));
    }
  }

  /** Following `k` steps up from a folder `k` deep ends at the project root. */
  lemma {:induction false} AscendRepeat(dir: seq<string>, rest: string)
    ensures Ascend(dir, Repeat("../", |dir|) + rest) == []
  {
    if dir != [] {
      var r := Repeat("../", |dir|) + rest;
      assert r == "../" + (Repeat("../", |dir| - 1) + rest);
      assert r[..3] == "../" && r[3..] == Repeat("../", |dir| - 1) + rest;
      AscendRepeat(dir[..|dir| - 1], rest);
    }
  }

  /**
   * The prefix `getRoot` computes leads from the folder back to the project
   * root: whatever root-relative path follows it is resolved from the root.
   */
  lemma BackPathReachesRoot(dirs: seq<string>, target: string)
    requires Segments(dirs)
    ensures Ascend(dirs, BackPath(Join(dirs)) + target) == []
  {
    JoinDepth(dirs);
    AscendRepeat(dirs, target);
  }
}
