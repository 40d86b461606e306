/** The response body: a seekable, truncatable byte file (`wpull.body.Body`). */
module FtpBody {
  import opened FtpTypes

  datatype File = File(data: seq<Byte>, pos: nat)

  /** A file whose position lies within its contents. */
  type Body = f: File | f.pos <= |f.data| witness File([], 0)

  const EmptyBody: Body := File([], 0)

  /** `write(d)`: overwrite from the position onward, extending the file if
      needed, and move the position past the written bytes. */
  function Write(b: Body, d: seq<Byte>): (r: Body)
    ensures r.pos == b.pos + |d|
    ensures r.data[..b.pos] == b.data[..b.pos]
    ensures r.data[b.pos..r.pos] == d
    ensures r.data[r.pos..] == if r.pos <= |b.data| then b.data[r.pos..] else []
  {
    var tail := if b.pos + |d| <= |b.data| then b.data[b.pos + |d|..] else [];
    File(b.data[..b.pos] + d + tail, b.pos + |d|)
  }

  /** `seek(0)`. */
  function Rewind(b: Body): (r: Body)
    ensures r.data == b.data && r.pos == 0
  {
    File(b.data, 0)
  }

  /** `truncate()`: drop everything from the position onward. */
  function Truncate(b: Body): (r: Body)
    ensures r.data == b.data[..b.pos] && r.pos == b.pos
  {
    File(b.data[..b.pos], b.pos)
  }

  /** `read()`: the bytes from the position to the end; the position moves to the end. */
  function ReadAll(b: Body): (r: (seq<Byte>, Body))
    ensures b.data[..b.pos] + r.0 == b.data
    ensures r.1.data == b.data && r.1.pos == |b.data|
  {
    (b.data[b.pos..], File(b.data, |b.data|))
  }

  /** Writing two pieces one after the other is writing their concatenation. */
  lemma WriteAppend(b: Body, x: seq<Byte>, y: seq<Byte>)
    ensures Write(Write(b, x), y) == Write(b, x + y)
  {
    var w1 := Write(b, x);
    var lhs := Write(w1, y);
    var rhs := Write(b, x + y);
    WriteAppendMiddle(b, x, y);
    WriteAppendTail(b, x, y);
    SameBody(lhs, rhs, b.pos);
  }

  lemma WriteAppendMiddle(b: Body, x: seq<Byte>, y: seq<Byte>)
    ensures var w1 := Write(b, x);
      var lhs := Write(w1, y);
      lhs.data[..b.pos] == b.data[..b.pos] && lhs.data[b.pos..lhs.pos] == x + y
  {
    var w1 := Write(b, x);
    var lhs := Write(w1, y);
    assert lhs.data[b.pos..w1.pos] == w1.data[b.pos..w1.pos];
    assert lhs.data[b.pos..lhs.pos] == lhs.data[b.pos..w1.pos] + lhs.data[w1.pos..lhs.pos];
  }

  lemma WriteAppendTail(b: Body, x: seq<Byte>, y: seq<Byte>)
    ensures var lhs := Write(Write(b, x), y);
      var rhs := Write(b, x + y);
      lhs.data[lhs.pos..] == rhs.data[rhs.pos..]
  {
    var w1 := Write(b, x);
    var lhs := Write(w1, y);
    if lhs.pos <= |b.data| {
      assert w1.data[w1.pos..] == b.data[w1.pos..];
      assert w1.data[lhs.pos..] == b.data[lhs.pos..];
    }
  }

  /** Two bodies agree when their positions and their three parts around a
      cut do. */
  lemma SameBody(l: Body, r: Body, cut: nat)
    requires cut <= l.pos == r.pos
    requires l.data[..cut] == r.data[..cut]
    requires l.data[cut..l.pos] == r.data[cut..r.pos]
    requires l.data[l.pos..] == r.data[r.pos..]
    ensures l == r
  {
    assert l.data == l.data[..cut] + l.data[cut..l.pos] + l.data[l.pos..];
    assert r.data == r.data[..cut] + r.data[cut..r.pos] + r.data[r.pos..];
  }

  /** Seeking to the start and truncating leaves an empty body, whatever was written. */
  lemma ResetEmpties(b: Body)
    ensures Truncate(Rewind(b)) == EmptyBody
  {
  }

  /** Writing into an empty body yields exactly the written bytes. */
  lemma WriteEmpty(d: seq<Byte>)
    ensures Write(EmptyBody, d).data == d
  {
  }
}
