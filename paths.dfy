/**
 * The part of POSIX path handling (`path.parse`, `path.join`, `path.resolve`)
 * that the export and upload code relies on. A path is a string; `/` is the
 * separator. Normalisation of `.`/`..` segments, repeated separators and
 * trailing separators is not modelled.
 */
module Paths {

  const Separator: char := '/'

  /** Index of the last occurrence of `c` in `s`, or -1 when there is none. */
  function LastIndexOf(s: string, c: char): (k: int)
    ensures -1 <= k < |s|
    ensures k >= 0 ==> s[k] == c
  {
    if |s| == 0 then -1
    else if s[|s| - 1] == c then |s| - 1
    else LastIndexOf(s[..|s| - 1], c)
  }

  /** No occurrence of `c` follows the one `LastIndexOf` finds. */
  lemma {:induction false} LastIndexOfIsLast(s: string, c: char)
    ensures forall j :: LastIndexOf(s, c) < j < |s| ==> s[j] != c
    decreases |s|
  {
    if |s| > 0 && s[|s| - 1] != c {
      LastIndexOfIsLast(s[..|s| - 1], c);
    }
  }

  /** The last segment of a path (`path.parse(p).base`). */
  function Base(p: string): (b: string)
    ensures Separator !in b
    ensures |b| <= |p| && b == p[|p| - |b|..]
  {
    var k := LastIndexOf(p, Separator);
    LastIndexOfIsLast(p, Separator);
    p[k + 1..]
  }

  /** The directory part of a path (`path.parse(p).dir`). */
  function Dir(p: string): string
  {
    var k := LastIndexOf(p, Separator);
    if k < 0 then "" else if k == 0 then "/" else p[..k]
  }

  /**
   * Where the extension of a base name starts: at its last dot, unless there
   * is no dot, the dot is the first character (`.bashrc`), or the base name is
   * `..`; then the extension is empty and starts at the end.
   */
  function ExtStart(b: string): (k: nat)
    ensures k <= |b|
    ensures k < |b| ==> 0 < k && b[k] == '.'
  {
    var k := LastIndexOf(b, '.');
    if k <= 0 || b == ".." then |b| else k
  }

  /** `path.parse(p).name`: the base name without its extension. */
  function Name(p: string): string
  {
    var b := Base(p);
    b[..ExtStart(b)]
  }

  /** `path.parse(p).ext`: the extension, dot included, or "". */
  function Ext(p: string): string
  {
    var b := Base(p);
    b[ExtStart(b)..]
  }

  /** `path.join(dir, piece)` for a piece that is a single file name. */
  function Join(dir: string, piece: string): string
  {
    if dir == "" then piece
    else if dir[|dir| - 1] == Separator then dir + piece
    else dir + [Separator] + piece
  }

  /** `path.resolve(p)` against the working directory `cwd`. */
  function Resolve(cwd: string, p: string): string
  {
    if |p| > 0 && p[0] == Separator then p else Join(cwd, p)
  }

  /** Against an absolute working directory, every path resolves to an absolute one. */
  lemma ResolveAbsolute(cwd: string, p: string)
    requires |cwd| > 0 && cwd[0] == Separator
    ensures var r := Resolve(cwd, p); |r| > 0 && r[0] == Separator
  {
  }

  /** A base name is its name followed by its extension. */
  lemma NameExtSplitBase(p: string)
    ensures Name(p) + Ext(p) == Base(p)
    ensures Separator !in Name(p)
  {
    var b := Base(p);
    assert b[..ExtStart(b)] + b[ExtStart(b)..] == b;
  }

  /** The last occurrence of `c` in `s + t` lies in `t` when `t` holds one. */
  lemma {:induction false} LastIndexOfAppend(s: string, t: string, c: char)
    ensures LastIndexOf(s + t, c) == (if c in t then |s| + LastIndexOf(t, c) else LastIndexOf(s, c))
    decreases |t|
  {
    if |t| == 0 {
      assert s + t == s;
    } else {
      var u := s + t;
      assert u[..|u| - 1] == s + t[..|t| - 1];
      if t[|t| - 1] != c {
        LastIndexOfAppend(s, t[..|t| - 1], c);
        assert c in t <==> c in t[..|t| - 1] by {
          if c in t {
            var i :| 0 <= i < |t| && t[i] == c;
            assert t[..|t| - 1][i] == c;
          }
        }
      }
    }
  }

  /** Joining a directory with a plain file name gives a path whose base is that name. */
  lemma BaseOfJoin(dir: string, piece: string)
    requires Separator !in piece
    ensures Base(Join(dir, piece)) == piece
  {
    var p := Join(dir, piece);
    if dir != "" {
      var head := if dir[|dir| - 1] == Separator then dir else dir + [Separator];
      assert p == head + piece;
      LastIndexOfAppend(head, piece, Separator);
      assert head[|head| - 1] == Separator;
      assert LastIndexOf(head, Separator) == |head| - 1;
      assert p[|head|..] == piece;
    } else {
      assert LastIndexOf(piece, Separator) == -1;
    }
  }

  /**
   * Writing file `name + ext` into a directory, with a non-empty name and an
   * extension made of a dot followed by dot-free characters, gives back
   * `name` as `path.parse(...).name` and `ext` as its extension.
   */
  lemma NameOfJoin(dir: string, name: string, ext: string)
    requires Separator !in name && name != ""
    requires Separator !in ext && |ext| >= 2 && ext[0] == '.' && '.' !in ext[1..]
    ensures Name(Join(dir, name + ext)) == name
    ensures Ext(Join(dir, name + ext)) == ext
  {
    var b := name + ext;
    assert Separator !in b by {
      assert forall i :: 0 <= i < |b| ==> b[i] == (if i < |name| then name[i] else ext[i - |name|]);
    }
    BaseOfJoin(dir, b);
    assert ext == [ext[0]] + ext[1..];
    assert b == (name + [ext[0]]) + ext[1..];
    LastIndexOfAppend(name + [ext[0]], ext[1..], '.');
    LastIndexOfAppend(name, [ext[0]], '.');
    assert LastIndexOf(b, '.') == |name|;
    assert b != ".." by {
      assert |b| >= 3;
    }
    assert b[..|name|] == name;
    assert b[|name|..] == ext;
  }
}
