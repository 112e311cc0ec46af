/** The few pieces of Python's built-in behaviour that the weather tools rely on:
    decoded JSON values, truthiness, the text an f-string substitutes for a
    scalar, `str.join` and the slice `xs[:stop]`. */
module Python {

  datatype Option<+T> = None | Some(value: T)

  /** A JSON document as `response.json()` decodes it. A number keeps the text
      Python's `str()` gives for it (`72`, `-3.5`), which is what an f-string
      substitutes; a JSON object becomes a dict, modelled without key order. */
  datatype Json =
    | JNull
    | JBool(b: bool)
    | JNumber(text: string)
    | JString(s: string)
    | JArray(items: seq<Json>)
    | JObject(fields: map<string, Json>)

  /** The renderings `str()` gives the numeric zeros `0`, `0.0` and `-0.0`. */
  predicate IsZeroText(t: string) {
    t == "0" || t == "0.0" || t == "-0.0"
  }

  /** Python truthiness (`bool(x)`, `not x`) of a decoded JSON value. The falsy
      values are exactly `None`, `False`, a numeric zero, `""`, `[]` and `{}`. */
  predicate Truthy(j: Json)
    ensures !Truthy(j) <==>
      || j == JNull || j == JBool(false) || (j.JNumber? && IsZeroText(j.text))
      || j == JString("") || j == JArray([]) || j == JObject(map[])
  {
    match j
    case JNull => false
    case JBool(b) => b
    case JNumber(t) => !IsZeroText(t)
    case JString(s) => s != ""
    case JArray(xs) => xs != []
    case JObject(m) => |m| != 0
  }

  /** `k in d` for a dict `d`; false for every value that is not a dict. */
  predicate HasKey(j: Json, k: string) {
    j.JObject? && k in j.fields
  }

  predicate IsScalar(j: Json) {
    !j.JArray? && !j.JObject?
  }

  /** The text `f"{x}"` substitutes for a scalar JSON value. */
  function Str(j: Json): (r: string)
    requires IsScalar(j)
    ensures j.JString? ==> r == j.s
    ensures j.JNull? ==> r == "None"
  {
    if j.JNull? then "None"
    else if j.JBool? then (if j.b then "True" else "False")
    else if j.JNumber? then j.text
    else j.s
  }

  /** `f"{d.get(k, default)}"` for a dict whose entry at `k`, if any, is a scalar. */
  function GetOr(d: map<string, Json>, k: string, default: string): (r: string)
    requires k in d ==> IsScalar(d[k])
    ensures k !in d ==> r == default
    ensures k in d && d[k].JString? ==> r == d[k].s
  {
    if k in d then Str(d[k]) else default
  }

  function Min(a: int, b: int): int { if a <= b then a else b }

  function Max(a: int, b: int): int { if a <= b then b else a }

  /** The end index CPython's slice normalisation computes for `xs[:stop]` on a
      sequence of length `n`: a negative stop counts from the end and is clamped
      at 0, a stop beyond the end is clamped at `n`. */
  function SliceEnd(n: nat, stop: int): (k: nat)
    ensures k <= n
  {
    if stop < 0 then
      (if stop + n < 0 then 0 else stop + n)
    else if stop >= n then n
    else stop
  }

  /** `xs[:stop]`. */
  function Slice<T>(xs: seq<T>, stop: int): (r: seq<T>)
    ensures |r| <= |xs| && r == xs[..|r|]
    ensures stop >= 0 ==> |r| == Min(stop, |xs|)
    ensures stop < 0 ==> |r| == Max(|xs| + stop, 0)
  {
    xs[..SliceEnd(|xs|, stop)]
  }

  /** `sep.join(parts)`: no parts give the empty string; otherwise the text
      begins with the first part. */
  function Join(sep: string, parts: seq<string>): (r: string)
    ensures parts == [] ==> r == ""
    ensures parts != [] ==> parts[0] <= r
  {
    if |parts| == 0 then ""
    else if |parts| == 1 then parts[0]
    else parts[0] + sep + Join(sep, parts[1..])
  }

  /** The sum of the lengths of `parts`. */
  function TotalLength(parts: seq<string>): nat
  {
    if parts == [] then 0 else |parts[0]| + TotalLength(parts[1..])
  }

  /** Where `parts[i]` begins in `sep.join(parts)`: after the earlier parts and
      one separator behind each of them. */
  function PieceStart(sep: string, parts: seq<string>, i: nat): nat
    requires i <= |parts|
  {
    TotalLength(parts[..i]) + i * |sep|
  }

  lemma {:induction false} JoinLength(sep: string, parts: seq<string>)
    requires parts != []
    ensures |Join(sep, parts)| == TotalLength(parts) + (|parts| - 1) * |sep|
  {
    if |parts| > 1 {
      JoinLength(sep, parts[1..]);
    }
  }

  /** Slicing past a prefix `a` of `a + b` slices `b`. */
  lemma SliceAfter(a: string, b: string, i: int, j: int)
    requires 0 <= i <= j <= |b|
    ensures (a + b)[|a| + i .. |a| + j] == b[i..j]
  {
    assert forall k :: 0 <= k < j - i ==> (a + b)[|a| + i .. |a| + j][k] == b[i..j][k];
  }

  lemma PieceStartTail(sep: string, parts: seq<string>, i: nat)
    requires 0 < i <= |parts|
    ensures PieceStart(sep, parts, i) == |parts[0]| + |sep| + PieceStart(sep, parts[1..], i - 1)
  {
    assert parts[..i][1..] == parts[1..][..i - 1];
    assert i * |sep| == (i - 1) * |sep| + |sep|;
  }

  /** Consecutive parts are one separator apart. */
  lemma {:induction false} PieceStartNext(sep: string, parts: seq<string>, i: nat)
    requires i < |parts|
    ensures PieceStart(sep, parts, i + 1) == PieceStart(sep, parts, i) + |parts[i]| + |sep|
  {
    if i == 0 {
      assert parts[..0] == [];
      assert parts[..1][1..] == [];
    } else {
      PieceStartTail(sep, parts, i);
      PieceStartTail(sep, parts, i + 1);
      PieceStartNext(sep, parts[1..], i - 1);
    }
  }

  /** `sep.join(parts)` holds `parts[i]` at `PieceStart(sep, parts, i)`. */
  lemma {:induction false} JoinPiece(sep: string, parts: seq<string>, i: nat)
    requires i < |parts|
    ensures PieceStart(sep, parts, i) + |parts[i]| <= |Join(sep, parts)|
    ensures Join(sep, parts)[PieceStart(sep, parts, i) .. PieceStart(sep, parts, i) + |parts[i]|] == parts[i]
  {
    if i == 0 {
      assert parts[..0] == [];
      if |parts| > 1 {
        assert Join(sep, parts) == parts[0] + (sep + Join(sep, parts[1..]));
      }
    } else {
      var rest := parts[1..];
      var head := parts[0] + sep;
      assert Join(sep, parts) == head + Join(sep, rest);
      PieceStartTail(sep, parts, i);
      JoinPiece(sep, rest, i - 1);
      var s := PieceStart(sep, rest, i - 1);
      SliceAfter(head, Join(sep, rest), s, s + |rest[i - 1]|);
    }
  }

  /** In `sep.join(parts)` one `sep` follows every part but the last. */
  lemma {:induction false} JoinSeparator(sep: string, parts: seq<string>, i: nat)
    requires i + 1 < |parts|
    ensures PieceStart(sep, parts, i) + |parts[i]| + |sep| <= |Join(sep, parts)|
    ensures Join(sep, parts)[PieceStart(sep, parts, i) + |parts[i]| .. PieceStart(sep, parts, i) + |parts[i]| + |sep|] == sep
  {
    var rest := parts[1..];
    var head := parts[0] + sep;
    assert Join(sep, parts) == head + Join(sep, rest);
    if i == 0 {
      assert parts[..0] == [];
      assert head[|parts[0]|..] == sep;
    } else {
      PieceStartTail(sep, parts, i);
      JoinSeparator(sep, rest, i - 1);
      var s := PieceStart(sep, rest, i - 1) + |rest[i - 1]|;
      SliceAfter(head, Join(sep, rest), s, s + |sep|);
    }
  }

  /** Everything `JoinPiece`, `JoinSeparator`, `PieceStartNext` and
      `JoinLength` say about part `i` of `sep.join(parts)`, in one place. */
  lemma JoinLayout(sep: string, parts: seq<string>, i: nat)
    requires i < |parts|
    ensures |Join(sep, parts)| == TotalLength(parts) + (|parts| - 1) * |sep|
    ensures PieceAt(sep, parts, Join(sep, parts), i)
  {
    JoinLength(sep, parts);
    JoinPiece(sep, parts, i);
    if i + 1 < |parts| {
      JoinSeparator(sep, parts, i);
      PieceStartNext(sep, parts, i);
    }
  }

  /** Part `i` of `parts` sits in `text` at `PieceStart(sep, parts, i)` and, unless
      it is the last, one `sep` follows it. */
  ghost predicate PieceAt(sep: string, parts: seq<string>, text: string, i: nat)
    requires i < |parts|
  {
    var s := PieceStart(sep, parts, i);
    && s + |parts[i]| <= |text|
    && text[s .. s + |parts[i]|] == parts[i]
    && (i + 1 < |parts| ==>
          && PieceStart(sep, parts, i + 1) == s + |parts[i]| + |sep|
          && s + |parts[i]| + |sep| <= |text|
          && text[s + |parts[i]| .. s + |parts[i]| + |sep|] == sep)
  }

  /** `text` is `parts` laid out with `sep` between neighbours: the right
      length, every part at its place, in order, one `sep` after each part but
      the last. */
  ghost predicate LaidOut(sep: string, parts: seq<string>, text: string) {
    && parts != []
    && |text| == TotalLength(parts) + (|parts| - 1) * |sep|
    && forall i :: 0 <= i < |parts| ==> PieceAt(sep, parts, text, i)
  }

  lemma JoinLaidOut(sep: string, parts: seq<string>)
    requires parts != []
    ensures LaidOut(sep, parts, Join(sep, parts))
  {
    JoinLength(sep, parts);
    forall i | 0 <= i < |parts|
      ensures PieceAt(sep, parts, Join(sep, parts), i)
    {
      JoinLayout(sep, parts, i);
    }
  }
}
