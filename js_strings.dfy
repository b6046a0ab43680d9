/**
 * The JavaScript string operations the generation handler relies on:
 * `String.prototype.split` with a one-character separator, its inverse
 * `Array.prototype.join`, and the evaluation of a template literal.
 */
module JsStrings {

  /** `s.split(sep)`: the maximal separator-free pieces of `s`, in order. */
  function Split(s: string, sep: char): (parts: seq<string>)
    ensures |parts| >= 1
    ensures forall i :: 0 <= i < |parts| ==> sep !in parts[i]
    ensures Join(parts, sep) == s
    decreases |s|
  {
    if |s| == 0 then [""]
    else
      var rest := Split(s[1..], sep);
      if s[0] == sep then
        assert ([""] + rest)[1..] == rest;
        [""] + rest
      else
        var parts := [[s[0]] + rest[0]] + rest[1..];
        assert parts[1..] == rest[1..];
        assert s == [s[0]] + s[1..];
        parts
  }

  /** `parts.join(sep)`. */
  function Join(parts: seq<string>, sep: char): string
    requires |parts| >= 1
    decreases |parts|
  {
    if |parts| == 1 then parts[0] else parts[0] + [sep] + Join(parts[1..], sep)
  }

  /** Splitting a string that starts with a separator-free `head`. */
  lemma {:induction false} SplitAfterHead(head: string, rest: string, sep: char)
    requires sep !in head
    ensures Split(head + rest, sep) == [head + Split(rest, sep)[0]] + Split(rest, sep)[1..]
    decreases |head|
  {
    if |head| > 0 {
      SplitAfterHead(head[1..], rest, sep);
      assert (head + rest)[1..] == head[1..] + rest;
      assert [head[0]] + (head[1..] + Split(rest, sep)[0]) == head + Split(rest, sep)[0];
    } else {
      var parts := Split(rest, sep);
      assert head + rest == rest && head + parts[0] == parts[0];
      assert parts == [parts[0]] + parts[1..];
    }
  }

  /** Splitting undoes joining, when no piece holds the separator. */
  lemma {:induction false} SplitJoin(parts: seq<string>, sep: char)
    requires |parts| >= 1
    requires forall i :: 0 <= i < |parts| ==> sep !in parts[i]
    ensures Split(Join(parts, sep), sep) == parts
    decreases |parts|
  {
    if |parts| == 1 {
      SplitAfterHead(parts[0], "", sep);
      assert parts[0] + "" == parts[0];
    } else {
      var tail := Join(parts[1..], sep);
      SplitJoin(parts[1..], sep);
      assert Join(parts, sep) == parts[0] + ([sep] + tail);
      SplitAfterHead(parts[0], [sep] + tail, sep);
      var after := [sep] + tail;
      assert after[0] == sep && after[1..] == tail;
      assert Split(after, sep) == [""] + Split(tail, sep);
      assert Split(after, sep)[0] == "" && Split(after, sep)[1..] == parts[1..];
      assert parts[0] + "" == parts[0];
      assert parts == [parts[0]] + parts[1..];
    }
  }

  /** The value of a template literal whose literal pieces are `chunks` and whose substitutions evaluate to `values`. */
  function Interpolate(chunks: seq<string>, values: seq<string>): string
    requires |chunks| == |values| + 1
    decreases |values|
  {
    if |values| == 0 then chunks[0]
    else chunks[0] + values[0] + Interpolate(chunks[1..], values[1..])
  }

  /** Where literal chunk `k` ends in the filled template, which is where substitution `k` begins. */
  function SlotStart(chunks: seq<string>, values: seq<string>, k: nat): nat
    requires |chunks| == |values| + 1
    requires k <= |values|
    decreases k
  {
    if k == 0 then |chunks[0]|
    else |chunks[0]| + |values[0]| + SlotStart(chunks[1..], values[1..], k - 1)
  }

  /** Literal chunk `k` stands verbatim just before `SlotStart(k)`; the last chunk ends the string. */
  lemma {:induction false} ChunkAt(chunks: seq<string>, values: seq<string>, k: nat)
    requires |chunks| == |values| + 1
    requires k <= |values|
    ensures |chunks[k]| <= SlotStart(chunks, values, k) <= |Interpolate(chunks, values)|
    ensures Interpolate(chunks, values)[SlotStart(chunks, values, k) - |chunks[k]|..SlotStart(chunks, values, k)] == chunks[k]
    ensures k == |values| ==> SlotStart(chunks, values, k) == |Interpolate(chunks, values)|
    decreases k
  {
    var r := Interpolate(chunks, values);
    if |values| == 0 {
      assert r == chunks[0];
    } else {
      var rest := Interpolate(chunks[1..], values[1..]);
      assert r == chunks[0] + (values[0] + rest);
      if k == 0 {
        PrefixOfAppend(chunks[0], values[0] + rest);
      } else {
        ChunkAt(chunks[1..], values[1..], k - 1);
        var lead := chunks[0] + values[0];
        assert r == lead + rest;
        var at := SlotStart(chunks[1..], values[1..], k - 1);
        SliceOfAppend(lead, rest, |lead| + at - |chunks[k]|, |lead| + at);
      }
    }
  }

  /** Substitution `k` stands verbatim from `SlotStart(k)` on. */
  lemma {:induction false} ValueAt(chunks: seq<string>, values: seq<string>, k: nat)
    requires |chunks| == |values| + 1
    requires k < |values|
    ensures SlotStart(chunks, values, k) + |values[k]| <= |Interpolate(chunks, values)|
    ensures Interpolate(chunks, values)[SlotStart(chunks, values, k)..SlotStart(chunks, values, k) + |values[k]|] == values[k]
    decreases k
  {
    var r := Interpolate(chunks, values);
    var lead := chunks[0] + values[0];
    var rest := Interpolate(chunks[1..], values[1..]);
    assert r == lead + rest;
    if k == 0 {
      assert r == chunks[0] + (values[0] + rest);
      SliceOfAppend(chunks[0], values[0] + rest, |chunks[0]|, |lead|);
      PrefixOfAppend(values[0], rest);
    } else {
      ValueAt(chunks[1..], values[1..], k - 1);
      var at := SlotStart(chunks[1..], values[1..], k - 1);
      SliceOfAppend(lead, rest, |lead| + at, |lead| + at + |values[k]|);
    }
  }

  lemma PrefixOfAppend(a: string, b: string)
    ensures (a + b)[..|a|] == a
  {
  }

  lemma SliceOfAppend(a: string, b: string, i: nat, j: nat)
    requires |a| <= i <= j <= |a| + |b|
    ensures (a + b)[i..j] == b[i - |a|..j - |a|]
  {
  }
}
