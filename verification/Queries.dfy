/** URLSearchParams: a query string as name-value pairs, parsed and printed. */
module Queries {
  import opened Values
  import opened Splitting
  import opened Percent

  type Params = seq<(string, string)>

  predicate ParamsBytes(params: Params) {
    forall i :: 0 <= i < |params| ==> Bytes(params[i].0) && Bytes(params[i].1)
  }

  /** The first value of that name. */
  function Get(params: Params, name: string): Option<string> {
    if params == [] then None
    else if params[0].0 == name then Some(params[0].1)
    else Get(params[1..], name)
  }

  function ParsePair(piece: string): (string, string) {
    var name := Split(piece, '=')[0];
    (DecodeQuery(name), if |name| < |piece| then DecodeQuery(piece[|name| + 1..]) else "")
  }

  function ParsePairs(pieces: seq<string>): Params {
    if pieces == [] then []
    else (if pieces[0] == "" then [] else [ParsePair(pieces[0])]) + ParsePairs(pieces[1..])
  }

  function ParseQuery(search: string): Params {
    ParsePairs(Split(if search != "" && search[0] == '?' then search[1..] else search, '&'))
  }

  function PrintPair(pair: (string, string)): string
    requires Bytes(pair.0) && Bytes(pair.1)
  {
    EncodeQuery(pair.0) + "=" + EncodeQuery(pair.1)
  }

  function PrintPairs(params: Params): (pieces: seq<string>)
    requires ParamsBytes(params)
    ensures |pieces| == |params|
  {
    if params == [] then [] else [PrintPair(params[0])] + PrintPairs(params[1..])
  }

  function PrintQuery(params: Params): string
    requires ParamsBytes(params)
  {
    Join(PrintPairs(params), '&')
  }

  lemma EncodedIsPlain(s: string, c: char)
    requires Bytes(s) && !SafeInQuery(c) && c !in "%+"
    ensures c !in EncodeQuery(s)
  {
  }

  lemma ParsePrintedPair(name: string, value: string)
    requires Bytes(name) && Bytes(value)
    ensures ParsePair(EncodeQuery(name) + "=" + EncodeQuery(value)) == (name, value)
  {
    var n, v := EncodeQuery(name), EncodeQuery(value);
    EncodedIsPlain(name, '=');
    SplitFirst(n, v, '=');
    assert n + "=" + v == n + ['='] + v;
    assert (n + "=" + v)[|n| + 1..] == v;
    DecodeEncodeQuery(name);
    DecodeEncodeQuery(value);
  }

  /** A printed pair holds neither separator, and parses back. */
  lemma ParsePrintPair(pair: (string, string))
    requires Bytes(pair.0) && Bytes(pair.1)
    ensures ParsePair(PrintPair(pair)) == pair
    ensures '&' !in PrintPair(pair) && '?' !in PrintPair(pair) && PrintPair(pair) != ""
  {
    ParsePrintedPair(pair.0, pair.1);
    EncodedIsPlain(pair.0, '&');
    EncodedIsPlain(pair.0, '?');
    EncodedIsPlain(pair.1, '&');
    EncodedIsPlain(pair.1, '?');
  }

  lemma {:induction false} ParsePrintPairs(params: Params)
    requires ParamsBytes(params)
    ensures ParsePairs(PrintPairs(params)) == params
    ensures forall i :: 0 <= i < |params| ==> '&' !in PrintPairs(params)[i]
  {
    if params != [] {
      ParsePrintPair(params[0]);
      ParsePrintPairs(params[1..]);
    }
  }

  lemma PrintedStart(params: Params)
    requires ParamsBytes(params) && params != []
    ensures PrintQuery(params) != "" && PrintQuery(params)[0] != '?'
  {
  }

  /** Whatever the pairs hold, with or without the leading question mark. */
  lemma ParsePrintQuery(params: Params)
    requires ParamsBytes(params)
    ensures ParseQuery(PrintQuery(params)) == params
    ensures ParseQuery("?" + PrintQuery(params)) == params
  {
    if params == [] {
      assert PrintQuery(params) == "";
      assert Split("", '&') == [""];
      assert ParsePairs([""]) == [] + ParsePairs([]);
      assert ("?" + "")[1..] == "";
    } else {
      ParsePrintPairs(params);
      PrintedStart(params);
      SplitJoin(PrintPairs(params), '&');
      assert ("?" + PrintQuery(params))[1..] == PrintQuery(params);
    }
  }

  lemma {:induction false} GetOfConcat(a: Params, b: Params, name: string)
    ensures Get(a + b, name) == if Get(a, name).Some? then Get(a, name) else Get(b, name)
  {
    if a == [] {
      assert a + b == b;
    } else {
      assert (a + b)[1..] == a[1..] + b;
      GetOfConcat(a[1..], b, name);
    }
  }

  lemma {:induction false} PiecesBytes(s: string, sep: char)
    requires Bytes(s)
    ensures forall i :: 0 <= i < |Split(s, sep)| ==> Bytes(Split(s, sep)[i])
  {
    if s != "" {
      PiecesBytes(s[1..], sep);
    }
  }

  lemma {:induction false} PairsBytes(pieces: seq<string>)
    requires forall i :: 0 <= i < |pieces| ==> Bytes(pieces[i])
    ensures ParamsBytes(ParsePairs(pieces))
  {
    if pieces != [] {
      var piece := pieces[0];
      PiecesBytes(piece, '=');
      var name := Split(piece, '=')[0];
      DecodeQueryBytes(name);
      if |name| < |piece| {
        DecodeQueryBytes(piece[|name| + 1..]);
      }
      PairsBytes(pieces[1..]);
    }
  }

  lemma {:induction false} GetIsBytes(params: Params, name: string)
    requires ParamsBytes(params)
    ensures Get(params, name).Some? ==> Bytes(Get(params, name).value)
  {
    if params != [] {
      GetIsBytes(params[1..], name);
    }
  }

  lemma ParsedBytes(search: string, name: string)
    requires Bytes(search)
    ensures ParamsBytes(ParseQuery(search))
    ensures Get(ParseQuery(search), name).Some? ==> Bytes(Get(ParseQuery(search), name).value)
  {
    var query := if search != "" && search[0] == '?' then search[1..] else search;
    PiecesBytes(query, '&');
    PairsBytes(Split(query, '&'));
    GetIsBytes(ParseQuery(search), name);
  }

  /** The first value of a name wins. */
  lemma {:induction false} GetIsFirst(params: Params, name: string)
    ensures match Get(params, name)
            case None => forall i :: 0 <= i < |params| ==> params[i].0 != name
            case Some(value) =>
              exists i :: 0 <= i < |params| && params[i] == (name, value) && forall j :: 0 <= j < i ==> params[j].0 != name
  {
    if params != [] && params[0].0 != name {
      GetIsFirst(params[1..], name);
      match Get(params[1..], name)
      case None =>
      case Some(value) =>
        var i :| 0 <= i < |params| - 1 && params[1..][i] == (name, value) && forall j :: 0 <= j < i ==> params[1..][j].0 != name;
        assert params[i + 1] == (name, value);
        assert forall j :: 0 < j < i + 1 ==> params[j] == params[1..][j - 1];
    } else if params != [] {
      assert params[0] == (name, params[0].1);
    }
  }

  /** A piece splits at its first equals sign; without one it is a name with an empty value. */
  lemma PieceParsed(name: string, value: string)
    requires '=' !in name
    ensures ParsePair(name + "=" + value) == (DecodeQuery(name), DecodeQuery(value))
    ensures ParsePair(name) == (DecodeQuery(name), "")
  {
    SplitFirst(name, value, '=');
    SplitLast(name, '=');
    assert name + "=" + value == name + ['='] + value;
    assert (name + "=" + value)[|name| + 1..] == value;
  }
}
