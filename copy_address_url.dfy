/** The share URL of the rewards page's copy button
    (features/rewards/components/CopyAddressUrl.tsx): string splitting and
    concatenation on the page's `href`, in the IPFS mode and in the hosted
    mode. `getBasedHashHref` is an input. */
module CopyAddressUrl {
  import opened Wrappers

  // ---------------------------------------------------------------------
  // JavaScript's String.prototype.split with a one-character separator
  // ---------------------------------------------------------------------

  /** The pieces joined back with the separator. */
  function Join(pieces: seq<string>, c: char): string
    requires |pieces| >= 1
    decreases |pieces|
  {
    if |pieces| == 1 then pieces[0] else pieces[0] + [c] + Join(pieces[1..], c)
  }

  /** `s.split(c)`: the text between consecutive separators, always at least
      one piece (the empty string splits to `[""]`). The pieces hold no
      separator and join back to `s`. */
  function Split(s: string, c: char): (r: seq<string>)
    ensures |r| >= 1
    ensures forall i :: 0 <= i < |r| ==> c !in r[i]
    ensures Join(r, c) == s
    decreases |s|
  {
    if s == [] then [""]
    else if s[0] == c then
      var rest := Split(s[1..], c);
      assert ([""] + rest)[1..] == rest;
      [""] + rest
    else
      var rest := Split(s[1..], c);
      var r := [[s[0]] + rest[0]] + rest[1..];
      assert r[1..] == rest[1..];
      assert forall i :: 1 <= i < |r| ==> r[i] == rest[i];
      r
  }

  /** A string without the separator is one piece. */
  lemma {:induction false} SplitWithoutSeparator(s: string, c: char)
    requires c !in s
    ensures Split(s, c) == [s]
    decreases |s|
  {
    if s != [] {
      assert c !in s[1..] by {
        forall k | 0 <= k < |s[1..]| ensures s[1..][k] != c { assert s[1..][k] == s[k + 1]; }
      }
      SplitWithoutSeparator(s[1..], c);
      assert [s[0]] + s[1..] == s;
    }
  }

  /** Splitting a piece, the separator and the rest yields that piece and
      the rest's pieces. */
  lemma {:induction false} SplitAfterPiece(p: string, c: char, t: string)
    requires c !in p
    ensures Split(p + [c] + t, c) == [p] + Split(t, c)
    decreases |p|
  {
    var s := p + [c] + t;
    if p == [] {
      assert s == [c] + t && s[0] == c && s[1..] == t;
    } else {
      assert s[0] == p[0] && s[1..] == p[1..] + [c] + t;
      assert c !in p[1..] by {
        forall k | 0 <= k < |p[1..]| ensures p[1..][k] != c { assert p[1..][k] == p[k + 1]; }
      }
      SplitAfterPiece(p[1..], c, t);
      assert [p[0]] + p[1..] == p;
    }
  }

  /** `split` is the only way to cut `s` into separator-free pieces that
      join back to `s`. */
  lemma {:induction false} SplitUnique(s: string, c: char, pieces: seq<string>)
    requires |pieces| >= 1 && (forall i :: 0 <= i < |pieces| ==> c !in pieces[i]) && Join(pieces, c) == s
    ensures Split(s, c) == pieces
    decreases |pieces|
  {
    if |pieces| == 1 {
      SplitWithoutSeparator(s, c);
    } else {
      var rest := pieces[1..];
      assert forall i :: 0 <= i < |rest| ==> c !in rest[i] by {
        forall i | 0 <= i < |rest| ensures c !in rest[i] { assert rest[i] == pieces[i + 1]; }
      }
      SplitUnique(Join(rest, c), c, rest);
      SplitAfterPiece(pieces[0], c, Join(rest, c));
      assert [pieces[0]] + rest == pieces;
    }
  }

  /** There is a second piece exactly when the separator occurs. */
  lemma SplitHasSecondPiece(s: string, c: char)
    ensures |Split(s, c)| >= 2 <==> c in s
  {
    var r := Split(s, c);
    if |r| >= 2 {
      assert s == r[0] + [c] + Join(r[1..], c);
      assert s[|r[0]|] == c;
    } else {
      assert s == r[0];
    }
  }

  /** `p` is the longest prefix of `s` free of the characters in `stops`: the
      prefix ends at the end of `s` or at a stop character. */
  predicate CutAt(s: string, stops: set<char>, p: string) {
    && |p| <= |s| && s[..|p|] == p
    && (forall k :: 0 <= k < |p| ==> p[k] !in stops)
    && (|p| == |s| || s[|p|] in stops)
  }

  /** The first piece is the text before the first separator. */
  lemma FirstPieceCuts(s: string, c: char)
    ensures CutAt(s, {c}, Split(s, c)[0])
  {
    var r := Split(s, c);
    if |r| >= 2 {
      assert s == r[0] + ([c] + Join(r[1..], c));
    }
  }

  // ---------------------------------------------------------------------
  // The share URL
  // ---------------------------------------------------------------------

  /** `href.split('#')[1]` is `undefined`, and reading `.split` of it throws. */
  datatype UrlError = TypeError

  /** The memoised `url`. In IPFS mode the base is `href` cut at the first
      '?' and then at the first '#'; the hash route is the second '#'-piece,
      cut at its first '?'; the result is the base followed by
      `getBasedHashHref(hash, {address})`. Otherwise the query is cut off and
      `?address=` with the address is appended. */
  function ShareUrl(href: string, address: string, ipfsMode: bool,
                    basedHashHref: (string, map<string, string>) -> string): (r: Result<string, UrlError>)
    ensures r.Failure? <==> ipfsMode && '#' !in href
  {
    SplitHasSecondPiece(href, '#');
    if ipfsMode then
      var withoutHashAndQuery := Split(Split(href, '?')[0], '#')[0];
      var hashPieces := Split(href, '#');
      if |hashPieces| < 2 then Failure(TypeError)
      else
        var hash := Split(hashPieces[1], '?')[0];
        Success(withoutHashAndQuery + basedHashHref(hash, map["address" := address]))
    else
      var withoutQuery := Split(href, '?')[0];
      Success(withoutQuery + ADDRESS_QUERY + address)
  }

  const ADDRESS_QUERY: string := "?address="

  /** Hosted mode: the text of `href` before its first '?', then `?address=`
      and the address; the part before `?address=` holds no '?', so any
      original query is dropped. */
  lemma HostedUrl(href: string, address: string, basedHashHref: (string, map<string, string>) -> string)
    ensures var r := ShareUrl(href, address, false, basedHashHref);
      exists p :: CutAt(href, {'?'}, p) && r == Success(p + ADDRESS_QUERY + address)
  {
    var p := Split(href, '?')[0];
    FirstPieceCuts(href, '?');
    assert CutAt(href, {'?'}, p) && ShareUrl(href, address, false, basedHashHref) == Success(p + ADDRESS_QUERY + address);
  }

  /** Cutting at one stop and then at another is cutting at either. */
  lemma CutTwice(s: string, a: char, b: char, p: string, q: string)
    requires CutAt(s, {a}, p) && CutAt(p, {b}, q)
    ensures CutAt(s, {a, b}, q)
  {
    assert s[..|q|] == p[..|q|];
    if |q| < |s| && |q| == |p| {
      assert s[|q|] == a;
    }
    if |q| < |p| {
      assert s[|q|] == p[|q|];
      assert p[|q|] == b;
    }
  }

  /** IPFS mode with a '#': the base is `href` up to its first '?' or '#';
      the hash route starts after the first '#' and runs up to the next '#'
      or '?'; the result is the base followed by the based hash href of the
      route with the address. */
  lemma IpfsUrl(href: string, address: string, basedHashHref: (string, map<string, string>) -> string)
    requires '#' in href
    ensures var r := ShareUrl(href, address, true, basedHashHref);
      exists base, k, hash ::
        && CutAt(href, {'?', '#'}, base)
        && 0 <= k < |href| && href[k] == '#' && '#' !in href[..k]
        && CutAt(href[k + 1..], {'#', '?'}, hash)
        && r == Success(base + basedHashHref(hash, map["address" := address]))
  {
    var beforeQuery := Split(href, '?')[0];
    var base := Split(beforeQuery, '#')[0];
    FirstPieceCuts(href, '?');
    FirstPieceCuts(beforeQuery, '#');
    CutTwice(href, '?', '#', beforeQuery, base);
    var pieces := Split(href, '#');
    SplitHasSecondPiece(href, '#');
    var k := |pieces[0]|;
    var after := Join(pieces[1..], '#');
    assert href == pieces[0] + ['#'] + after;
    assert href[k] == '#' && href[..k] == pieces[0];
    assert href[k + 1..] == after;
    assert pieces[1..][0] == pieces[1];
    FirstPieceCuts(after, '#');
    assert Split(after, '#') == pieces[1..] by {
      assert forall i :: 0 <= i < |pieces[1..]| ==> '#' !in pieces[1..][i] by {
        forall i | 0 <= i < |pieces[1..]| ensures '#' !in pieces[1..][i] { assert pieces[1..][i] == pieces[i + 1]; }
      }
      SplitUnique(after, '#', pieces[1..]);
    }
    var hash := Split(pieces[1], '?')[0];
    FirstPieceCuts(pieces[1], '?');
    CutTwice(after, '#', '?', pieces[1], hash);
    assert CutAt(href[k + 1..], {'#', '?'}, hash);
    assert ShareUrl(href, address, true, basedHashHref) == Success(base + basedHashHref(hash, map["address" := address]));
  }
}
