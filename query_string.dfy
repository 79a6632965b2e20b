/**
 * `URLSearchParams` over application/x-www-form-urlencoded text (WHATWG URL
 * Standard, section 5.1): the list of name-value pairs, and `get`, `delete`,
 * `keys`, `set` and `toString`.
 *
 * Percent-encoding is not modelled on either side. The parser keeps `%XX`
 * as written, where `URLSearchParams` decodes it. The serializer writes
 * every character except the space (which becomes `+`) as itself, where
 * `toString()` percent-encodes the UTF-8 bytes of every character other
 * than ASCII letters, digits and `*-._` (so `{`, `"`, `:`, `,`, `=` and
 * `/` come out as `%7B`, `%22`, `%3A`, `%2C`, `%3D` and `%2F`). The two
 * omissions cancel in the round trip below, which is stated for the text
 * on which the model's parser and serializer agree.
 */
module QueryString {
  import opened Basics
  import opened Strings

  type Params = seq<(string, string)>

  /** The '+' to ' ' replacement of the parser. */
  function PlusToSpace(s: string): (r: string)
    ensures |r| == |s| && '+' !in r
    ensures forall i :: 0 <= i < |s| ==> r[i] == (if s[i] == '+' then ' ' else s[i])
  {
    if s == [] then [] else [if s[0] == '+' then ' ' else s[0]] + PlusToSpace(s[1..])
  }

  /** One non-empty piece: the name before the first '=', the value after it. */
  function ParsePiece(piece: string): (string, string)
  {
    if '=' in piece then
      var k := IndexOf(piece, '=');
      (PlusToSpace(piece[..k]), PlusToSpace(piece[k + 1..]))
    else (PlusToSpace(piece), "")
  }

  function ParsePieces(pieces: seq<string>): (ps: Params)
    ensures |ps| <= |pieces|
  {
    if pieces == [] then []
    else if pieces[0] == [] then ParsePieces(pieces[1..])
    else [ParsePiece(pieces[0])] + ParsePieces(pieces[1..])
  }

  /** `new URLSearchParams(s)`: a leading '?' is dropped, the rest is split on '&', empty pieces are skipped. */
  function Parse(s: string): Params
  {
    var body := if s != [] && s[0] == '?' then s[1..] else s;
    ParsePieces(Split(body, '&'))
  }

  /** `get(k)`: the value of the first pair named `k`. */
  function Get(ps: Params, k: string): (r: Option<string>)
    ensures r.Some? <==> k in Keys(ps)
    ensures r.Some? ==> (k, r.value) in ps
  {
    if ps == [] then None
    else if ps[0].0 == k then Some(ps[0].1)
    else Get(ps[1..], k)
  }

  /** The first pair decides: in `a + b`, `b` is consulted only for names `a` lacks. */
  lemma {:induction false} GetAppend(a: Params, b: Params, k: string)
    ensures Get(a + b, k) == if k in Keys(a) then Get(a, k) else Get(b, k)
  {
    if a != [] {
      assert (a + b)[0] == a[0] && (a + b)[1..] == a[1..] + b;
      assert Keys(a) == [a[0].0] + Keys(a[1..]);
      if a[0].0 != k {
        GetAppend(a[1..], b, k);
        assert Get(a + b, k) == Get(a[1..] + b, k);
        assert (k in Keys(a)) == (k in Keys(a[1..]));
        assert Get(a, k) == Get(a[1..], k);
      } else {
        assert Get(a + b, k) == Some(a[0].1) == Get(a, k);
        assert Keys(a)[0] == k;
      }
    } else {
      assert a + b == b;
    }
  }

  /** `keys()`: every name in order, repeated names included. */
  function Keys(ps: Params): (ks: seq<string>)
    ensures |ks| == |ps| && forall i :: 0 <= i < |ps| ==> ks[i] == ps[i].0
  {
    if ps == [] then [] else [ps[0].0] + Keys(ps[1..])
  }

  /** `delete(k)`: every pair named `k` is removed, the others keep their order. */
  function Delete(ps: Params, k: string): (r: Params)
    ensures k !in Keys(r)
    ensures forall j :: j != k ==> Get(r, j) == Get(ps, j)
    ensures |r| <= |ps|
  {
    if ps == [] then []
    else if ps[0].0 == k then Delete(ps[1..], k)
    else [ps[0]] + Delete(ps[1..], k)
  }

  /**
   * `set(k, v)`: the first pair named `k` takes the value `v` and the later
   * ones are removed; with no such pair, `(k, v)` is appended.
   */
  function SetParam(ps: Params, k: string, v: string): (r: Params)
    ensures k !in Keys(ps) ==> r == ps + [(k, v)]
  {
    if ps == [] then [(k, v)]
    else if ps[0].0 == k then [(k, v)] + Delete(ps[1..], k)
    else [ps[0]] + SetParam(ps[1..], k, v)
  }

  /** After `set(k, v)`, `get(k)` is `v`, the other names read as before, and `k` is there once. */
  lemma {:induction false} SetParamGet(ps: Params, k: string, v: string)
    ensures Get(SetParam(ps, k, v), k) == Some(v)
    ensures forall j :: j != k ==> Get(SetParam(ps, k, v), j) == Get(ps, j)
    ensures multiset(Keys(SetParam(ps, k, v)))[k] == 1
  {
    if ps != [] && ps[0].0 != k {
      SetParamGet(ps[1..], k, v);
      assert Keys(SetParam(ps, k, v)) == [ps[0].0] + Keys(SetParam(ps[1..], k, v));
    } else if ps != [] {
      var d := Delete(ps[1..], k);
      assert Keys([(k, v)] + d) == [k] + Keys(d);
      assert multiset(Keys(d))[k] == 0;
    }
  }

  /** Space is written as '+'. */
  function SpaceToPlus(s: string): (r: string)
    ensures |r| == |s|
    ensures forall i :: 0 <= i < |s| ==> r[i] == (if s[i] == ' ' then '+' else s[i])
  {
    if s == [] then [] else [if s[0] == ' ' then '+' else s[0]] + SpaceToPlus(s[1..])
  }

  function SerializePairs(ps: Params): (pieces: seq<string>)
    ensures |pieces| == |ps|
    ensures forall i :: 0 <= i < |ps| ==> pieces[i] == SpaceToPlus(ps[i].0) + "=" + SpaceToPlus(ps[i].1)
  {
    if ps == [] then [] else [SpaceToPlus(ps[0].0) + "=" + SpaceToPlus(ps[0].1)] + SerializePairs(ps[1..])
  }

  /** `toString()`: `name=value` pieces joined with '&'. */
  function Serialize(ps: Params): string
  {
    Join(SerializePairs(ps), "&")
  }

  /** Text the model's parser reads back as the model's serializer wrote it. */
  predicate PlainValue(s: string) { '&' !in s && '+' !in s && '%' !in s }

  predicate PlainName(s: string) { PlainValue(s) && '=' !in s && '?' !in s }

  predicate Plain(ps: Params)
  {
    forall i :: 0 <= i < |ps| ==> PlainName(ps[i].0) && PlainValue(ps[i].1)
  }

  lemma SplitAtFirst(x: string, c: char, y: string)
    requires c !in x
    ensures Split(x + [c] + y, c) == [x] + Split(y, c)
  {
    var s := x + [c] + y;
    assert s[|x|] == c;
    var k := IndexOf(s, c);
    assert k == |x| by {
      assert forall i :: 0 <= i < |x| ==> s[i] == x[i];
    }
    assert s[..k] == x && s[k + 1..] == y;
  }

  lemma {:induction false} SplitJoin(parts: seq<string>, c: char)
    requires |parts| >= 1
    requires forall i :: 0 <= i < |parts| ==> c !in parts[i]
    ensures Split(Join(parts, [c]), c) == parts
  {
    if |parts| > 1 {
      assert Join(parts, [c]) == parts[0] + [c] + Join(parts[1..], [c]);
      SplitAtFirst(parts[0], c, Join(parts[1..], [c]));
      SplitJoin(parts[1..], c);
      assert parts == [parts[0]] + parts[1..];
    }
  }

  lemma PlusToSpaceOfSpaceToPlus(s: string)
    requires '+' !in s
    ensures PlusToSpace(SpaceToPlus(s)) == s
  {
    var r := PlusToSpace(SpaceToPlus(s));
    assert |r| == |s|;
    forall i | 0 <= i < |s| ensures r[i] == s[i] {
      assert s[i] != '+';
    }
  }

  lemma ParsePieceOfPair(n: string, v: string)
    requires PlainName(n) && PlainValue(v)
    ensures ParsePiece(SpaceToPlus(n) + "=" + SpaceToPlus(v)) == (n, v)
  {
    var piece := SpaceToPlus(n) + "=" + SpaceToPlus(v);
    var m := SpaceToPlus(n);
    assert '=' !in m by {
      forall i | 0 <= i < |m| ensures m[i] != '=' { assert n[i] != '='; }
    }
    assert piece[|m|] == '=';
    var k := IndexOf(piece, '=');
    assert k == |m| by {
      assert forall i :: 0 <= i < |m| ==> piece[i] == m[i];
    }
    assert piece[..k] == m && piece[k + 1..] == SpaceToPlus(v);
    PlusToSpaceOfSpaceToPlus(n);
    PlusToSpaceOfSpaceToPlus(v);
  }

  lemma {:induction false} ParsePiecesOfPairs(ps: Params)
    requires Plain(ps)
    ensures ParsePieces(SerializePairs(ps)) == ps
  {
    if ps != [] {
      var pieces := SerializePairs(ps);
      assert pieces[0] != [] by { assert pieces[0][|SpaceToPlus(ps[0].0)|] == '='; }
      ParsePieceOfPair(ps[0].0, ps[0].1);
      ParsePiecesOfPairs(ps[1..]);
      assert pieces[1..] == SerializePairs(ps[1..]);
    }
  }

  /** Parsing what `toString()` writes gives back the same pairs, in order, duplicates included. */
  lemma ParseSerialize(ps: Params)
    requires Plain(ps)
    ensures Parse(Serialize(ps)) == ps
  {
    var pieces := SerializePairs(ps);
    var s := Serialize(ps);
    if ps == [] {
      assert s == "";
    } else {
      forall i | 0 <= i < |pieces| ensures '&' !in pieces[i] {
        var n, v := ps[i].0, ps[i].1;
        assert '&' !in SpaceToPlus(n) by {
          forall j | 0 <= j < |n| ensures SpaceToPlus(n)[j] != '&' { assert n[j] != '&'; }
        }
        assert '&' !in SpaceToPlus(v) by {
          forall j | 0 <= j < |v| ensures SpaceToPlus(v)[j] != '&' { assert v[j] != '&'; }
        }
        assert pieces[i] == SpaceToPlus(n) + "=" + SpaceToPlus(v);
      }
      assert s != [] && s[0] != '?' by {
        var m := SpaceToPlus(ps[0].0);
        assert |Join(pieces, "&")| > 0 && Join(pieces, "&")[0] == pieces[0][0] by {
          if |pieces| > 1 { assert Join(pieces, "&") == pieces[0] + "&" + Join(pieces[1..], "&"); }
          assert pieces[0] == m + "=" + SpaceToPlus(ps[0].1);
        }
        if m != [] { assert ps[0].0[0] != '?'; }
      }
      SplitJoin(pieces, '&');
      ParsePiecesOfPairs(ps);
    }
  }
}
