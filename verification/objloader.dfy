/**
 * Wavefront OBJ loading (objloader.py `loadOBJ`).
 *
 * The file is read line by line into three tables (positions, texture
 * coordinates, normals; each starts with a zero dummy entry so that an
 * omitted index 0 means "none") and three index lists filled by face lines.
 * After the whole file is read, every face corner is resolved against the
 * final tables with Python list indexing, giving three aligned flat lists
 * with one entry per face corner, in file order.
 *
 * The file is an input: `None` when it cannot be opened, otherwise its lines.
 * Decimal parsing of coordinates is an input too (`parseFloat`, `None` where
 * Python's `float` raises).
 */
module ObjLoader {
  import opened Base

  /** A face corner: position, texture and normal indices as written (0 when omitted). */
  datatype Corner = Corner(v: int, vt: int, vn: int)

  datatype Line = Ignore | V(p: Vec3) | VT(t: Vec2) | VN(n: Vec3) | F(corners: seq<Corner>)

  datatype Tables = Tables(
    verts: seq<Vec3>, uvs: seq<Vec2>, norms: seq<Vec3>,
    iv: seq<int>, iuv: seq<int>, ivn: seq<int>)

  datatype Outcome =
    | NotOpened
    | Malformed
    | Loaded(vertices: seq<Vec3>, uvs: seq<Vec2>, normals: seq<Vec3>)

  const Origin: Vec3 := Vec3(0.0, 0.0, 0.0)

  const Initial: Tables := Tables([Origin], [Vec2(0.0, 0.0)], [Origin], [], [], [])

  // ---------------------------------------------------------------- text

  /** Python's whitespace, restricted to the Latin-1 range. */
  predicate IsSpace(ch: char) {
    ch == ' ' || ch == '\t' || ch == '\n' || ch == '\r' || ch == '\U{000B}' || ch == '\U{000C}'
    || ch == '\U{001C}' || ch == '\U{001D}' || ch == '\U{001E}' || ch == '\U{001F}'
    || ch == '\U{0085}' || ch == '\U{00A0}'
  }

  predicate NoSpace(s: string) {
    forall k :: 0 <= k < |s| ==> !IsSpace(s[k])
  }

  function StartsWith(s: string, prefix: string): bool {
    |prefix| <= |s| && s[..|prefix|] == prefix
  }

  /** `str.strip()`: drop leading and trailing whitespace. */
  function Strip(s: string): (r: string)
    ensures |r| <= |s|
    ensures |r| > 0 ==> !IsSpace(r[0]) && !IsSpace(r[|r| - 1])
    ensures NoSpace(s) ==> r == s
    decreases |s|
  {
    if |s| == 0 then s
    else if IsSpace(s[0]) then Strip(s[1..])
    else if IsSpace(s[|s| - 1]) then Strip(s[..|s| - 1])
    else s
  }

  /**
   * `Strip(s)` is a slice of `s` with only whitespace around it; with
   * the ends of the result being non-space, that is the longest such slice.
   */
  lemma {:induction false} StripSlice(s: string)
    ensures exists i, j :: 0 <= i <= j <= |s| && Strip(s) == s[i..j] && Surrounding(s, i, j)
    decreases |s|
  {
    if |s| == 0 {
      assert Strip(s) == s[0..0] && Surrounding(s, 0, 0);
    } else if IsSpace(s[0]) {
      StripSlice(s[1..]);
      var i, j :| 0 <= i <= j <= |s[1..]| && Strip(s[1..]) == s[1..][i..j] && Surrounding(s[1..], i, j);
      SurroundingFront(s, i, j);
    } else if IsSpace(s[|s| - 1]) {
      StripSlice(s[..|s| - 1]);
      var i, j :| 0 <= i <= j <= |s[..|s| - 1]| && Strip(s[..|s| - 1]) == s[..|s| - 1][i..j] && Surrounding(s[..|s| - 1], i, j);
      SurroundingBack(s, i, j);
    } else {
      assert Strip(s) == s[0..|s|] && Surrounding(s, 0, |s|);
    }
  }

  /** A slice surrounded by whitespace in `s[1..]` stays so in `s` when `s[0]` is whitespace. */
  lemma SurroundingFront(s: string, i: nat, j: nat)
    requires 0 < |s| && IsSpace(s[0]) && i <= j <= |s| - 1 && Surrounding(s[1..], i, j)
    ensures s[1..][i..j] == s[i + 1..j + 1] && Surrounding(s, i + 1, j + 1)
  {
    forall k | 0 <= k < i + 1 ensures IsSpace(s[k]) {
      if k > 0 { assert s[k] == s[1..][k - 1]; }
    }
    forall k | j + 1 <= k < |s| ensures IsSpace(s[k]) {
      assert s[k] == s[1..][k - 1];
    }
  }

  /** A slice surrounded by whitespace in `s[..|s| - 1]` stays so in `s` when the last character is whitespace. */
  lemma SurroundingBack(s: string, i: nat, j: nat)
    requires 0 < |s| && IsSpace(s[|s| - 1]) && i <= j <= |s| - 1 && Surrounding(s[..|s| - 1], i, j)
    ensures s[..|s| - 1][i..j] == s[i..j] && Surrounding(s, i, j)
  {
    forall k | j <= k < |s| ensures IsSpace(s[k]) {
      if k < |s| - 1 { assert s[k] == s[..|s| - 1][k]; }
    }
  }

  /** Everything of `s` outside `s[i..j]` is whitespace. */
  predicate Surrounding(s: string, i: nat, j: nat)
    requires i <= j <= |s|
  {
    (forall k :: 0 <= k < i ==> IsSpace(s[k])) && (forall k :: j <= k < |s| ==> IsSpace(s[k]))
  }

  /** Length of the run of non-space characters that starts `s`. */
  function WordLen(s: string): (n: nat)
    ensures n <= |s| && NoSpace(s[..n])
    ensures n < |s| ==> IsSpace(s[n])
  {
    if |s| == 0 || IsSpace(s[0]) then 0
    else
      var m := WordLen(s[1..]);
      assert s[..m + 1] == [s[0]] + s[1..][..m];
      m + 1
  }

  /** `str.split()`: the maximal runs of non-space characters, in order. */
  function Split(s: string): (ws: seq<string>)
    ensures forall k :: 0 <= k < |ws| ==> |ws[k]| > 0 && NoSpace(ws[k])
    decreases |s|
  {
    if |s| == 0 then []
    else if IsSpace(s[0]) then Split(s[1..])
    else
      var n := WordLen(s);
      [s[..n]] + Split(s[n..])
  }

  /** Words joined by single blanks: the inverse of `Split` on blank-free words. */
  function JoinWords(ws: seq<string>): string {
    if |ws| == 0 then "" else if |ws| == 1 then ws[0] else ws[0] + " " + JoinWords(ws[1..])
  }

  lemma {:induction false} WordLenOfWord(w: string, rest: string)
    requires |w| > 0 && NoSpace(w) && (|rest| == 0 || IsSpace(rest[0]))
    ensures WordLen(w + rest) == |w|
    decreases |w|
  {
    var s := w + rest;
    assert s[0] == w[0] && !IsSpace(w[0]);
    assert s[1..] == w[1..] + rest;
    if |w| > 1 {
      assert NoSpace(w[1..]) by {
        forall k | 0 <= k < |w[1..]| ensures !IsSpace(w[1..][k]) {
          assert w[1..][k] == w[k + 1];
        }
      }
      WordLenOfWord(w[1..], rest);
    } else {
      assert s[1..] == rest;
      assert WordLen(rest) == 0;
    }
  }

  /** Splitting blank-joined words gives the words back. */
  lemma {:induction false} SplitJoinWords(ws: seq<string>)
    requires forall k :: 0 <= k < |ws| ==> |ws[k]| > 0 && NoSpace(ws[k])
    ensures Split(JoinWords(ws)) == ws
  {
    if |ws| == 1 {
      WordLenOfWord(ws[0], "");
      assert ws[0] + "" == ws[0];
      assert ws[0][|ws[0]|..] == "";
    } else if |ws| > 1 {
      var rest := JoinWords(ws[1..]);
      var s := ws[0] + " " + rest;
      WordLenOfWord(ws[0], " " + rest);
      assert s == ws[0] + (" " + rest);
      assert s[..|ws[0]|] == ws[0];
      assert s[|ws[0]|..] == " " + rest;
      assert (" " + rest)[1..] == rest;
      SplitJoinWords(ws[1..]);
      assert ws == [ws[0]] + ws[1..];
    }
  }

  /** Index of the first `sep` in `s`, or |s|. */
  function FindChar(s: string, sep: char): (i: nat)
    ensures i <= |s| && (i < |s| ==> s[i] == sep)
    ensures forall k :: 0 <= k < i ==> s[k] != sep
  {
    if |s| == 0 then 0 else if s[0] == sep then 0 else 1 + FindChar(s[1..], sep)
  }

  /** `str.split(sep)`: the pieces between separators, empty ones included. */
  function SplitOn(s: string, sep: char): (parts: seq<string>)
    ensures |parts| >= 1
    ensures forall k :: 0 <= k < |parts| ==> sep !in parts[k]
    decreases |s|
  {
    var i := FindChar(s, sep);
    if i == |s| then [s] else [s[..i]] + SplitOn(s[i + 1..], sep)
  }

  function JoinOn(parts: seq<string>, sep: char): string
    requires |parts| >= 1
  {
    if |parts| == 1 then parts[0] else parts[0] + [sep] + JoinOn(parts[1..], sep)
  }

  /** Joining the pieces with the separator rebuilds the string. */
  lemma {:induction false} JoinSplitOn(s: string, sep: char)
    ensures JoinOn(SplitOn(s, sep), sep) == s
    decreases |s|
  {
    var i := FindChar(s, sep);
    if i < |s| {
      JoinSplitOn(s[i + 1..], sep);
      assert s == s[..i] + [sep] + s[i + 1..];
    }
  }

  // ---------------------------------------------------------------- numbers

  predicate IsDigit(ch: char) {
    '0' <= ch <= '9'
  }

  function DigitOf(ch: char): nat
    requires IsDigit(ch)
  {
    ch as int - '0' as int
  }

  function DigitChar(d: nat): (ch: char)
    requires d < 10
    ensures IsDigit(ch) && DigitOf(ch) == d
  {
    (d + '0' as int) as char
  }

  function DigitsValue(s: string): nat
    requires forall k :: 0 <= k < |s| ==> IsDigit(s[k])
  {
    if |s| == 0 then 0 else 10 * DigitsValue(s[..|s| - 1]) + DigitOf(s[|s| - 1])
  }

  /** `int(s)` on one blank-free token: an optional sign and at least one ASCII digit. */
  function ParseInt(s: string): (r: Option<int>)
    ensures r.Some? ==> |s| > 0
  {
    var neg := |s| > 0 && s[0] == '-';
    var body := if |s| > 0 && (s[0] == '-' || s[0] == '+') then s[1..] else s;
    if |body| == 0 || !(forall k :: 0 <= k < |body| ==> IsDigit(body[k])) then None
    else
      var n: int := DigitsValue(body);
      Some(if neg then -n else n)
  }

  /** Decimal spelling of a natural number. */
  function ShowNat(n: nat): (s: string)
    ensures |s| > 0 && forall k :: 0 <= k < |s| ==> IsDigit(s[k])
  {
    var d := [DigitChar(n % 10)];
    if n < 10 then d else ShowNat(n / 10) + d
  }

  lemma {:induction false} DigitsValueShowNat(n: nat)
    ensures DigitsValue(ShowNat(n)) == n
  {
    if n >= 10 {
      var d := [DigitChar(n % 10)];
      var s := ShowNat(n / 10) + d;
      assert s[..|s| - 1] == ShowNat(n / 10);
      DigitsValueShowNat(n / 10);
    }
  }

  /** Decimal spelling of an integer, with a minus sign when negative. */
  function ShowInt(i: int): string {
    if i < 0 then "-" + ShowNat(-i) else ShowNat(i)
  }

  /** Every index a face can carry is read back from its decimal spelling. */
  lemma ParseShowInt(i: int)
    ensures ParseInt(ShowInt(i)) == Some(i)
  {
    DigitsValueShowNat(if i < 0 then -i else i);
    if i < 0 {
      assert ("-" + ShowNat(-i))[1..] == ShowNat(-i);
    }
  }

  // ---------------------------------------------------------------- lines

  /** One `/`-separated field of a corner: absent or empty means 0. */
  function Field(fields: seq<string>, k: nat): Option<int> {
    if k < |fields| && |fields[k]| > 0 then ParseInt(fields[k]) else Some(0)
  }

  function ParseCorner(part: string): Option<Corner> {
    var fields := SplitOn(part, '/');
    var v, vt, vn := Field(fields, 0), Field(fields, 1), Field(fields, 2);
    if v.None? || vt.None? || vn.None? then None else Some(Corner(v.value, vt.value, vn.value))
  }

  function ParseCorners(parts: seq<string>): (r: Option<seq<Corner>>)
    ensures r.Some? ==> |r.value| == |parts|
  {
    if |parts| == 0 then Some([])
    else
      match (ParseCorner(parts[0]), ParseCorners(parts[1..]))
      case (Some(c), Some(cs)) => Some([c] + cs)
      case _ => None
  }

  function Floats(parts: seq<string>, parseFloat: string -> Option<real>, n: nat): (r: Option<seq<real>>)
    ensures r.Some? ==> |r.value| == n
  {
    if |parts| <= n then None
    else if exists k :: 1 <= k <= n && parseFloat(parts[k]).None? then None
    else Some(seq(n, k requires 0 <= k < n => parseFloat(parts[k + 1]).value))
  }

  /**
   * What one line of the file contributes; `None` when reading it raises
   * (a missing coordinate or a token that is not a number).
   */
  function Classify(raw: string, parseFloat: string -> Option<real>): Option<Line> {
    var line := Strip(raw);
    if |line| == 0 then Some(Ignore)
    else if StartsWith(line, "v ") then
      var xs := Floats(Split(line), parseFloat, 3);
      if xs.None? then None else Some(V(Vec3(xs.value[0], xs.value[1], xs.value[2])))
    else if StartsWith(line, "vt ") then
      var xs := Floats(Split(line), parseFloat, 2);
      if xs.None? then None else Some(VT(Vec2(xs.value[0], xs.value[1])))
    else if StartsWith(line, "vn ") then
      var xs := Floats(Split(line), parseFloat, 3);
      if xs.None? then None else Some(VN(Vec3(xs.value[0], xs.value[1], xs.value[2])))
    else if StartsWith(line, "f ") then
      var words := Split(line);
      var cs := ParseCorners(if |words| == 0 then [] else words[1..]);
      if cs.None? then None else Some(F(cs.value))
    else Some(Ignore)
  }

  /**
   * Every line that, once stripped, starts with none of `v `, `vt `, `vn `
   * and `f ` is skipped: comments (`#`), object, group, material and
   * smoothing lines, but also `vp …`, `v\t…` or `fo`.
   */
  lemma OtherLinesIgnored(raw: string, parseFloat: string -> Option<real>)
    requires !StartsWith(Strip(raw), "v ") && !StartsWith(Strip(raw), "vt ")
    requires !StartsWith(Strip(raw), "vn ") && !StartsWith(Strip(raw), "f ")
    ensures Classify(raw, parseFloat) == Some(Ignore)
  {
  }

  /** A line is skipped exactly when, stripped, it starts with none of the four keywords. */
  lemma IgnoredIffNoKeyword(raw: string, parseFloat: string -> Option<real>)
    ensures Classify(raw, parseFloat) == Some(Ignore) <==>
              !StartsWith(Strip(raw), "v ") && !StartsWith(Strip(raw), "vt ")
              && !StartsWith(Strip(raw), "vn ") && !StartsWith(Strip(raw), "f ")
  {
  }

  function Indices(cs: seq<Corner>, which: nat): (r: seq<int>)
    requires which < 3
    ensures |r| == |cs|
  {
    seq(|cs|, k requires 0 <= k < |cs| => if which == 0 then cs[k].v else if which == 1 then cs[k].vt else cs[k].vn)
  }

  function Apply(t: Tables, l: Line): Tables {
    match l
    case Ignore => t
    case V(p) => t.(verts := t.verts + [p])
    case VT(uv) => t.(uvs := t.uvs + [uv])
    case VN(n) => t.(norms := t.norms + [n])
    case F(cs) => t.(iv := t.iv + Indices(cs, 0), iuv := t.iuv + Indices(cs, 1), ivn := t.ivn + Indices(cs, 2))
  }

  predicate Aligned(t: Tables) {
    |t.iv| == |t.iuv| == |t.ivn|
  }

  /** The tables after reading `lines` on top of `t`; `None` once a line raises. */
  function FoldFrom(t: Tables, lines: seq<string>, parseFloat: string -> Option<real>): (r: Option<Tables>)
    ensures Aligned(t) && r.Some? ==> Aligned(r.value)
    ensures r.Some? ==> |r.value.verts| >= |t.verts| && r.value.verts[..|t.verts|] == t.verts
    ensures r.Some? ==> |r.value.uvs| >= |t.uvs| && r.value.uvs[..|t.uvs|] == t.uvs
    ensures r.Some? ==> |r.value.norms| >= |t.norms| && r.value.norms[..|t.norms|] == t.norms
    decreases |lines|
  {
    if |lines| == 0 then Some(t)
    else
      match FoldFrom(t, lines[..|lines| - 1], parseFloat)
      case None => None
      case Some(t1) =>
        match Classify(lines[|lines| - 1], parseFloat)
        case None => None
        case Some(l) =>
          assert t1.verts[..|t.verts|] == t.verts;
          assert t1.uvs[..|t.uvs|] == t.uvs;
          assert t1.norms[..|t.norms|] == t.norms;
          Some(Apply(t1, l))
  }

  function Then(r: Option<Tables>, lines: seq<string>, parseFloat: string -> Option<real>): Option<Tables> {
    match r
    case None => None
    case Some(t) => FoldFrom(t, lines, parseFloat)
  }

  /** Reading a file in two parts is reading the first, then the second. */
  lemma {:induction false} FoldAppend(t: Tables, xs: seq<string>, ys: seq<string>, parseFloat: string -> Option<real>)
    ensures FoldFrom(t, xs + ys, parseFloat) == Then(FoldFrom(t, xs, parseFloat), ys, parseFloat)
    decreases |ys|
  {
    if |ys| == 0 {
      assert xs + ys == xs;
    } else {
      var n := |ys| - 1;
      assert (xs + ys)[..|xs + ys| - 1] == xs + ys[..n];
      assert (xs + ys)[|xs + ys| - 1] == ys[n];
      FoldAppend(t, xs, ys[..n], parseFloat);
      if FoldFrom(t, xs, parseFloat).None? {
        assert FoldFrom(t, xs + ys[..n], parseFloat).None?;
      } else {
        var t0 := FoldFrom(t, xs, parseFloat).value;
        assert FoldFrom(t, xs + ys[..n], parseFloat) == FoldFrom(t0, ys[..n], parseFloat);
      }
    }
  }

  /** A line that contributes nothing can be dropped anywhere. */
  lemma IgnoredLineDropped(t: Tables, xs: seq<string>, l: string, ys: seq<string>, parseFloat: string -> Option<real>)
    requires Classify(l, parseFloat) == Some(Ignore)
    ensures FoldFrom(t, xs + [l] + ys, parseFloat) == FoldFrom(t, xs + ys, parseFloat)
  {
    FoldAppend(t, xs + [l], ys, parseFloat);
    FoldAppend(t, xs, ys, parseFloat);
    assert (xs + [l])[..|xs + [l]| - 1] == xs;
  }

  /**
   * Faces are resolved only after the whole file is read, so a data line and
   * a face line next to each other can be swapped without effect: a face may
   * use vertices defined after it.
   */
  lemma DataAndFaceCommute(t: Tables, xs: seq<string>, a: string, b: string, ys: seq<string>, parseFloat: string -> Option<real>)
    requires Classify(a, parseFloat).Some? && !Classify(a, parseFloat).value.F?
    requires Classify(b, parseFloat).Some? && Classify(b, parseFloat).value.F?
    ensures FoldFrom(t, xs + [a, b] + ys, parseFloat) == FoldFrom(t, xs + [b, a] + ys, parseFloat)
  {
    FoldAppend(t, xs + [a, b], ys, parseFloat);
    FoldAppend(t, xs + [b, a], ys, parseFloat);
    FoldAppend(t, xs, [a, b], parseFloat);
    FoldAppend(t, xs, [b, a], parseFloat);
    match FoldFrom(t, xs, parseFloat)
    case None =>
    case Some(t0) =>
      var la, lb := Classify(a, parseFloat).value, Classify(b, parseFloat).value;
      FoldTwo(t0, a, b, la, lb, parseFloat);
      FoldTwo(t0, b, a, lb, la, parseFloat);
      ApplyCommutes(t0, la, lb);
  }

  lemma FoldTwo(t: Tables, a: string, b: string, la: Line, lb: Line, parseFloat: string -> Option<real>)
    requires Classify(a, parseFloat) == Some(la) && Classify(b, parseFloat) == Some(lb)
    ensures FoldFrom(t, [a, b], parseFloat) == Some(Apply(Apply(t, la), lb))
  {
    assert [a, b][..1] == [a];
    assert [a][..0] == [];
    assert FoldFrom(t, [], parseFloat) == Some(t);
    assert FoldFrom(t, [a], parseFloat) == Some(Apply(t, la));
  }

  lemma ApplyCommutes(t: Tables, la: Line, lb: Line)
    requires !la.F? && lb.F?
    ensures Apply(Apply(t, la), lb) == Apply(Apply(t, lb), la)
  {
  }

  // ---------------------------------------------------------------- resolution

  /** Python list indexing: negative indices count from the end; anything else raises. */
  function PyIndex<T>(s: seq<T>, i: int): Option<T> {
    if 0 <= i < |s| then Some(s[i])
    else if -|s| <= i < 0 then Some(s[|s| + i])
    else None
  }

  predicate Resolvable(t: Tables, i: nat)
    requires Aligned(t) && i < |t.iv|
  {
    PyIndex(t.verts, t.iv[i]).Some? && PyIndex(t.uvs, t.iuv[i]).Some? && PyIndex(t.norms, t.ivn[i]).Some?
  }

  /** Look every face corner up in the final tables. */
  method Resolve(t: Tables) returns (out: Outcome)
    requires Aligned(t)
    ensures out.Loaded? <==> forall i :: 0 <= i < |t.iv| ==> Resolvable(t, i)
    ensures !out.Loaded? ==> out == Malformed
    ensures out.Loaded? ==> |out.vertices| == |out.uvs| == |out.normals| == |t.iv|
    ensures out.Loaded? ==> forall i :: 0 <= i < |t.iv| ==>
              Some(out.vertices[i]) == PyIndex(t.verts, t.iv[i])
              && Some(out.uvs[i]) == PyIndex(t.uvs, t.iuv[i])
              && Some(out.normals[i]) == PyIndex(t.norms, t.ivn[i])
  {
    var vertices, uvs, normals := [], [], [];
    var i := 0;
    while i < |t.iv|
      invariant 0 <= i <= |t.iv|
      invariant |vertices| == |uvs| == |normals| == i
      invariant forall k :: 0 <= k < i ==> Resolvable(t, k)
      invariant forall k :: 0 <= k < i ==>
                  Some(vertices[k]) == PyIndex(t.verts, t.iv[k])
                  && Some(uvs[k]) == PyIndex(t.uvs, t.iuv[k])
                  && Some(normals[k]) == PyIndex(t.norms, t.ivn[k])
    {
      var v, uv, n := PyIndex(t.verts, t.iv[i]), PyIndex(t.uvs, t.iuv[i]), PyIndex(t.norms, t.ivn[i]);
      if v.None? || uv.None? || n.None? {
        assert !Resolvable(t, i);
        return Malformed;
      }
      vertices, uvs, normals := vertices + [v.value], uvs + [uv.value], normals + [n.value];
      i := i + 1;
    }
    out := Loaded(vertices, uvs, normals);
  }

  /** `loadOBJ`: read the lines, then resolve the faces. */
  method LoadObj(file: Option<seq<string>>, parseFloat: string -> Option<real>) returns (out: Outcome)
    ensures file.None? <==> out == NotOpened
    ensures file.Some? && FoldFrom(Initial, file.value, parseFloat).None? ==> out == Malformed
    ensures out.Loaded? ==> file.Some? && FoldFrom(Initial, file.value, parseFloat).Some?
    ensures out.Loaded? ==> |out.vertices| == |out.uvs| == |out.normals| == |FoldFrom(Initial, file.value, parseFloat).value.iv|
    ensures file.Some? && FoldFrom(Initial, file.value, parseFloat).Some? ==>
              var t := FoldFrom(Initial, file.value, parseFloat).value;
              Aligned(t) && (out.Loaded? <==> forall i :: 0 <= i < |t.iv| ==> Resolvable(t, i))
    ensures out.Loaded? ==> var t := FoldFrom(Initial, file.value, parseFloat).value;
              forall i :: 0 <= i < |t.iv| ==>
                Some(out.vertices[i]) == PyIndex(t.verts, t.iv[i])
                && Some(out.uvs[i]) == PyIndex(t.uvs, t.iuv[i])
                && Some(out.normals[i]) == PyIndex(t.norms, t.ivn[i])
  {
    if file.None? {
      return NotOpened;
    }
    var t := FoldFrom(Initial, file.value, parseFloat);
    if t.None? {
      return Malformed;
    }
    out := Resolve(t.value);
  }

  /**
   * The zero dummies survive the whole file, so a corner whose index is
   * omitted (or written as 0) resolves to the zero position, texture
   * coordinate or normal.
   */
  lemma OmittedIndexIsOrigin(lines: seq<string>, parseFloat: string -> Option<real>)
    requires FoldFrom(Initial, lines, parseFloat).Some?
    ensures var t := FoldFrom(Initial, lines, parseFloat).value;
            PyIndex(t.verts, 0) == Some(Origin) && PyIndex(t.uvs, 0) == Some(Vec2(0.0, 0.0))
            && PyIndex(t.norms, 0) == Some(Origin)
  {
    var t := FoldFrom(Initial, lines, parseFloat).value;
    assert t.verts[..1] == [Origin] && t.uvs[..1] == [Vec2(0.0, 0.0)] && t.norms[..1] == [Origin];
    assert t.verts[0] == t.verts[..1][0];
    assert t.uvs[0] == t.uvs[..1][0];
    assert t.norms[0] == t.norms[..1][0];
  }

  /**
   * The flat lists are in face order, one entry per corner: a face of k
   * corners contributes k entries, so the result is a triangle list only when
   * every face is a triangle.
   */
  lemma FaceAddsItsCorners(t: Tables, xs: seq<string>, l: string, parseFloat: string -> Option<real>)
    requires FoldFrom(t, xs, parseFloat).Some? && Classify(l, parseFloat).Some? && Classify(l, parseFloat).value.F?
    ensures var t1 := FoldFrom(t, xs, parseFloat).value;
            var cs := Classify(l, parseFloat).value.corners;
            var t2 := FoldFrom(t, xs + [l], parseFloat).value;
            |t2.iv| == |t1.iv| + |cs| && t2.iv[..|t1.iv|] == t1.iv
            && forall k :: 0 <= k < |cs| ==> t2.iv[|t1.iv| + k] == cs[k].v && t2.iuv[|t1.iuv| + k] == cs[k].vt
                                              && t2.ivn[|t1.ivn| + k] == cs[k].vn
  {
    assert (xs + [l])[..|xs|] == xs;
  }
}
