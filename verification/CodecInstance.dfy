/**
 A codec that meets the laws asked of JSON. Texts are written with a mark before every character and
 one at the end, so that they can be read back from the front.
 */
module CodecInstance {
  import opened Wrappers
  import opened Session

  function Text(s: string): string {
    if s == [] then "." else ['-', s[0]] + Text(s[1..])
  }

  lemma {:induction false} TextIsReadBack(a: string, b: string, x: string, y: string)
    requires Text(a) + x == Text(b) + y
    ensures a == b && x == y
  {
    var s := Text(a) + x;
    if a == [] || b == [] {
      assert s[0] == Text(a)[0] == Text(b)[0];
      assert s[1..] == x == y;
    } else {
      assert s == ['-', a[0]] + (Text(a[1..]) + x);
      assert s == ['-', b[0]] + (Text(b[1..]) + y);
      assert s[1] == a[0] == b[0] && s[2..] == Text(a[1..]) + x == Text(b[1..]) + y;
      TextIsReadBack(a[1..], b[1..], x, y);
      assert a == [a[0]] + a[1..] && b == [b[0]] + b[1..];
    }
  }

  function Texts(d: seq<string>): string {
    if d == [] then "." else "-" + (Text(d[0]) + Texts(d[1..]))
  }

  lemma {:induction false} TextsAreReadBack(a: seq<string>, b: seq<string>)
    requires Texts(a) == Texts(b)
    ensures a == b
  {
    if a == [] || b == [] {
      assert Texts(a)[0] == Texts(b)[0];
    } else {
      assert Texts(a)[1..] == Text(a[0]) + Texts(a[1..]) && Texts(b)[1..] == Text(b[0]) + Texts(b[1..]);
      TextIsReadBack(a[0], b[0], Texts(a[1..]), Texts(b[1..]));
      TextsAreReadBack(a[1..], b[1..]);
      assert a == [a[0]] + a[1..] && b == [b[0]] + b[1..];
    }
  }

  /** A number as that many signs. */
  function Unary(n: int): (u: string)
    ensures |u| == if n < 0 then -n else n
    ensures u != [] ==> u[0] == if n < 0 then 'n' else 'p'
  {
    if n < 0 then seq(-n, i => 'n') else seq(n, i => 'p')
  }

  function Encode(r: Request): string {
    Text(r.client) + (Text(Unary(r.id)) + (Text(r.kind) + Texts(r.data)))
  }

  lemma EncodeIsReadBack(q: Request, r: Request)
    requires Encode(q) == Encode(r)
    ensures q == r
  {
    TextIsReadBack(q.client, r.client, Text(Unary(q.id)) + (Text(q.kind) + Texts(q.data)),
                   Text(Unary(r.id)) + (Text(r.kind) + Texts(r.data)));
    TextIsReadBack(Unary(q.id), Unary(r.id), Text(q.kind) + Texts(q.data), Text(r.kind) + Texts(r.data));
    TextIsReadBack(q.kind, r.kind, Texts(q.data), Texts(r.data));
    TextsAreReadBack(q.data, r.data);
  }

  ghost function Decode(s: string): (r: Option<Request>)
    ensures r.Some? ==> Encode(r.value) == s
    ensures r.None? ==> forall q :: Encode(q) != s
  {
    if exists q :: Encode(q) == s then
      var q :| Encode(q) == s; Some(q)
    else None
  }

  lemma {:induction false} TextsEndInMark(d: seq<string>)
    ensures Texts(d) != [] && Texts(d)[|Texts(d)| - 1] == '.'
  {
    if d != [] {
      TextsEndInMark(d[1..]);
    }
  }

  /** An encoded request begins and ends with a mark, so trimming leaves it alone. */
  lemma EncodeIsTrimmed(r: Request)
    ensures Trim(Encode(r)) == Encode(r) && Encode(r) != ""
  {
    var s := Encode(r);
    TextsEndInMark(r.data);
    assert s[0] == Text(r.client)[0];
    assert s[|s| - 1] == Texts(r.data)[|Texts(r.data)| - 1];
    MarkedIsTrimmed(s);
  }

  lemma MarkedIsTrimmed(s: string)
    requires s != [] && !IsSpace(s[0]) && !IsSpace(s[|s| - 1])
    ensures Trim(s) == s
  {
  }

  /** The laws can be met. */
  lemma LawfulCodecExists() returns (c: Codec)
    ensures c.Lawful()
  {
    c := Codec(s => Decode(s), r => Encode(r),
               p => if p == [] then None else Some(p[0]), a => [a],
               p => if |p| == 4 then Some(Doc(p[0], p[1], p[2], p[3])) else None,
               (d: Doc) => [d.path, d.action, d.detection, d.destModule]);
    forall r ensures Trim(c.encode(r)) != "" && c.message(Trim(c.encode(r))) == Some(r) {
      EncodeIsTrimmed(r);
      EncodeIsReadBack(Decode(Encode(r)).value, r);
    }
  }
}
