/** The local file name taken from a response's `Content-Disposition` field:
    the first match of the pattern `filename="?([^"]+)"?`, group 1, stripped.
    This is a loose reading of the `filename` parameter of section 4.3 of
    RFC 6266: there is no `filename*`, no quoted-pair escapes, and an
    unquoted value runs to the next `"` or to the end of the field. */
module Disposition {
  import opened Types
  import opened PyStr

  const ParamKey: string := "filename="
  const DispositionField: string := "content-disposition"

  /** The first index at or after `q` that holds a `"`, or `|s|`: the end of
      the greedy run `[^"]+` that starts at `q`. */
  function RunEnd(s: string, q: nat): (e: nat)
    requires q <= |s|
    ensures q <= e <= |s|
    ensures forall i :: q <= i < e ==> s[i] != '"'
    ensures e < |s| ==> s[e] == '"'
    decreases |s| - q
  {
    if q == |s| || s[q] == '"' then q else RunEnd(s, q + 1)
  }

  /** Whether `filename=` starts at position `p` of `s`. */
  predicate KeyAt(s: string, p: nat) {
    p + |ParamKey| <= |s| && s[p..p + |ParamKey|] == ParamKey
  }

  /** Where group 1 starts for a match at `p`: right after `filename=`, or one
      character later when that character is a `"`. */
  function GroupStart(s: string, p: nat): (q: nat)
    requires KeyAt(s, p)
    ensures p + |ParamKey| <= q <= |s|
  {
    var k := p + |ParamKey|;
    if k < |s| && s[k] == '"' then k + 1 else k
  }

  /** Group 1 of the pattern when the match is tried at position `p`, with
      the backtracking of the regular-expression engine: after `filename=`,
      an opening `"` is taken when it is followed by at least one non-quote
      character; otherwise the run must start right after the `=`. A match
      exists exactly when `filename=` is at `p` and a non-quote character
      follows it or its opening quote; the group is then the whole run of
      non-quote characters from there. */
  function MatchAt(s: string, p: nat): (r: Option<string>)
    requires p <= |s|
    ensures r.Some? <==> KeyAt(s, p) && GroupStart(s, p) < |s| && s[GroupStart(s, p)] != '"'
    ensures r.Some? ==>
      var q := GroupStart(s, p);
      && r.value != [] && q + |r.value| <= |s| && s[q..q + |r.value|] == r.value
      && (forall i :: 0 <= i < |r.value| ==> r.value[i] != '"')
      && (q + |r.value| == |s| || s[q + |r.value|] == '"')
  {
    if KeyAt(s, p) then
      var q := GroupStart(s, p);
      var e := RunEnd(s, q);
      if q < e then Some(s[q..e]) else None
    else None
  }

  /** `re.search`: the match at the leftmost position `>= p` where one exists. */
  function Search(s: string, p: nat): (r: Option<string>)
    requires p <= |s|
    ensures r.Some? ==> r.value != [] && forall i :: 0 <= i < |r.value| ==> r.value[i] != '"'
    decreases |s| - p
  {
    if MatchAt(s, p).Some? then MatchAt(s, p)
    else if p == |s| then None
    else Search(s, p + 1)
  }

  /** The search result is the match at the leftmost position where the pattern matches. */
  lemma {:induction false} SearchIsLeftmost(s: string, p: nat)
    requires p <= |s|
    ensures Search(s, p).None? <==> forall m :: p <= m <= |s| ==> MatchAt(s, m).None?
    ensures Search(s, p).Some? ==>
      exists m :: p <= m <= |s| && MatchAt(s, m) == Search(s, p) &&
        forall j :: p <= j < m ==> MatchAt(s, j).None?
    decreases |s| - p
  {
    if MatchAt(s, p).None? && p < |s| {
      SearchIsLeftmost(s, p + 1);
      if Search(s, p).Some? {
        var m :| p + 1 <= m <= |s| && MatchAt(s, m) == Search(s, p + 1) &&
          forall j :: p + 1 <= j < m ==> MatchAt(s, j).None?;
        assert forall j :: p <= j < m ==> MatchAt(s, j).None?;
      }
    }
  }

  /** The file name a response gives: `None` when the field is absent or empty,
      or when the pattern does not match. A name, when there is one, holds
      no quote and has no white space at either end. */
  function ExtractFilename(headers: Headers): (r: Option<string>)
    ensures r.Some? ==> r.value == [] || (!IsSpace(r.value[0]) && !IsSpace(r.value[|r.value| - 1]))
    ensures r.Some? ==> forall i :: 0 <= i < |r.value| ==> r.value[i] != '"'
  {
    if DispositionField in headers && headers[DispositionField] != "" then
      match Search(headers[DispositionField], 0)
      case Some(g) =>
        StripKeepsAbsent(g, '"');
        Some(Strip(g))
      case None => None
    else None
  }

  /** A response gives no file name exactly when it has no disposition field
      or no position of that field matches the pattern. */
  lemma NoMatchNoName(headers: Headers)
    ensures ExtractFilename(headers).None? <==> (DispositionField !in headers ||
      forall m :: 0 <= m <= |headers[DispositionField]| ==> MatchAt(headers[DispositionField], m).None?)
  {
    if DispositionField in headers {
      SearchIsLeftmost(headers[DispositionField], 0);
    }
  }

  /** Positions where no `filename=` starts cannot start a match. */
  lemma {:induction false} SearchSkipsPrefix(s: string, p: nat, q: nat)
    requires p <= q <= |s|
    requires forall i :: p <= i < q ==> !KeyAt(s, i)
    ensures Search(s, p) == Search(s, q)
    decreases q - p
  {
    if p < q {
      SearchSkipsPrefix(s, p + 1, q);
    }
  }

  /** Of the characters of `filename=`, only the first is an `f`. */
  lemma OnlyFirstIsF(j: nat)
    requires 1 <= j < |ParamKey|
    ensures ParamKey[j] != 'f'
  {
  }

  /** Hence a `f` in `pre` is needed for a `filename=` to start there. */
  lemma NoFNoKey(pre: string)
    requires forall i :: 0 <= i < |pre| ==> pre[i] != 'f'
    ensures forall i :: 0 <= i < |pre| ==> !KeyAt(pre, i)
  {
    forall i | 0 <= i < |pre| ensures !KeyAt(pre, i) {
      if i + |ParamKey| <= |pre| {
        assert pre[i..i + |ParamKey|][0] == pre[i];
      }
    }
  }

  /** Only the first character of `filename=` is an `f`, so no `filename=`
      can start inside `pre` and run on into a following `f...`. */
  lemma NoKeyStraddles(pre: string, rest: string)
    requires forall i :: 0 <= i < |pre| ==> !KeyAt(pre, i)
    requires rest != [] && rest[0] == 'f'
    ensures forall i :: 0 <= i < |pre| ==> !KeyAt(pre + rest, i)
  {
    var s := pre + rest;
    forall i | 0 <= i < |pre| ensures !KeyAt(s, i) {
      if i + |ParamKey| <= |pre| {
        assert !KeyAt(pre, i);
        assert s[i..i + |ParamKey|] == pre[i..i + |ParamKey|];
      } else if i + |ParamKey| <= |s| {
        var j := |pre| - i;
        OnlyFirstIsF(j);
        assert s[i..i + |ParamKey|][j] == s[|pre|] == rest[0];
      }
    }
  }

  /** `RunEnd` stops exactly at the first quote. */
  lemma RunEndAt(s: string, q: nat, e: nat)
    requires q <= e <= |s|
    requires forall i :: q <= i < e ==> s[i] != '"'
    requires e < |s| ==> s[e] == '"'
    ensures RunEnd(s, q) == e
  {
  }

  /** At a position holding `filename="<v>"`, the match captures `v`. */
  lemma MatchAtQuoted(s: string, p: nat, v: string)
    requires v != [] && forall i :: 0 <= i < |v| ==> v[i] != '"'
    requires p + |ParamKey| + |v| + 2 <= |s|
    requires s[p..p + |ParamKey|] == ParamKey
    requires s[p + |ParamKey|] == '"' && s[p + |ParamKey| + 1 + |v|] == '"'
    requires s[p + |ParamKey| + 1..p + |ParamKey| + 1 + |v|] == v
    ensures MatchAt(s, p) == Some(v)
  {
    var q := p + |ParamKey| + 1;
    forall i | q <= i < q + |v| ensures s[i] != '"' {
      assert s[i] == v[i - q];
    }
    RunEndAt(s, q, q + |v|);
  }

  /** A quoted value is returned without its quotes: for a field
      `<pre>filename="<v>"<post>` in which no `filename=` starts inside
      `<pre>`, the file name is `v` stripped. */
  lemma QuotedFilename(pre: string, v: string, post: string)
    requires forall i :: 0 <= i < |pre| ==> !KeyAt(pre, i)
    requires v != [] && forall i :: 0 <= i < |v| ==> v[i] != '"'
    ensures ExtractFilename(map[DispositionField := pre + ParamKey + "\"" + v + "\"" + post]) == Some(Strip(v))
  {
    var s := pre + ParamKey + "\"" + v + "\"" + post;
    var rest := ParamKey + "\"" + v + "\"" + post;
    var p := |pre|;
    var k := p + |ParamKey|;
    assert s == pre + rest && s[p..k] == ParamKey && s[k] == '"' by {
      assert s == pre + (ParamKey + "\"" + v + "\"" + post);
    }
    assert s[k + 1..k + 1 + |v|] == v && s[k + 1 + |v|] == '"' by {
      assert s == (pre + ParamKey + "\"") + (v + "\"" + post);
    }
    NoKeyStraddles(pre, rest);
    SearchSkipsPrefix(s, 0, p);
    MatchAtQuoted(s, p, v);
  }

  /** The usual `attachment; filename="foo.safetensors"` field names
      `foo.safetensors`. The literals are parameters pinned by `requires`:
      written into the statement, they would let the solver unfold the search
      over the whole literal field. */
  lemma AttachmentExample(pre: string, v: string)
    requires pre == "attachment; " && v == "foo.safetensors"
    ensures ExtractFilename(map[DispositionField := pre + ParamKey + "\"" + v + "\""]) == Some(v)
  {
    var field := pre + ParamKey + "\"" + v + "\"";
    assert field + "" == field;
    NoFNoKey(pre);
    QuotedFilename(pre, v, "");
    StripTrimmed(v);
  }

  /** At a position holding `filename=<v>` up to the end, with `v` free of
      quotes, the match captures `v`. */
  lemma MatchAtUnquoted(s: string, p: nat, v: string)
    requires v != [] && forall i :: 0 <= i < |v| ==> v[i] != '"'
    requires p + |ParamKey| + |v| == |s|
    requires s[p..p + |ParamKey|] == ParamKey && s[p + |ParamKey|..] == v
    ensures MatchAt(s, p) == Some(v)
  {
    var k := p + |ParamKey|;
    forall i | k <= i < |s| ensures s[i] != '"' {
      assert s[i] == v[i - k];
    }
    assert s[k] == v[0] && s[k..|s|] == v;
    RunEndAt(s, k, |s|);
  }

  /** An unquoted value runs to the end of the field: for a field
      `<pre>filename=<v>` in which no `filename=` starts inside `<pre>` and
      whose `<v>` holds no quote, the file name is all of `v`, stripped, `;`
      and later parameters included. */
  lemma UnquotedFilename(pre: string, v: string)
    requires forall i :: 0 <= i < |pre| ==> !KeyAt(pre, i)
    requires v != [] && forall i :: 0 <= i < |v| ==> v[i] != '"'
    ensures ExtractFilename(map[DispositionField := pre + ParamKey + v]) == Some(Strip(v))
  {
    var s := pre + ParamKey + v;
    var p := |pre|;
    var k := p + |ParamKey|;
    assert s == pre + (ParamKey + v);
    assert s[p..k] == ParamKey && s[k..] == v;
    NoKeyStraddles(pre, ParamKey + v);
    SearchSkipsPrefix(s, 0, p);
    MatchAtUnquoted(s, p, v);
  }

  /** `attachment; filename=a.bin; size=3` names `a.bin; size=3` (literals
      pinned by `requires`, as above). */
  lemma UnquotedExample(pre: string, v: string)
    requires pre == "attachment; " && v == "a.bin; size=3"
    ensures ExtractFilename(map[DispositionField := pre + ParamKey + v]) == Some(v)
  {
    NoFNoKey(pre);
    UnquotedFilename(pre, v);
    StripTrimmed(v);
  }

  /** An extended `filename*=` parameter ahead of `filename=` is passed over:
      `attachment; filename*=UTF-8''x.bin; filename="x.bin"` names `x.bin`
      (literals pinned by `requires`, as above). */
  lemma ExtendedParameterExample(pre: string, v: string)
    requires pre == "attachment; filename*=UTF-8''x.bin; " && v == "x.bin"
    ensures ExtractFilename(map[DispositionField := pre + ParamKey + "\"" + v + "\""]) == Some(v)
  {
    forall i | 0 <= i < |pre| ensures !KeyAt(pre, i) {
      if i + |ParamKey| <= |pre| {
        assert pre[i..i + |ParamKey|][0] == pre[i];
        assert pre[i..i + |ParamKey|][8] == pre[i + 8];
      }
    }
    var field := pre + ParamKey + "\"" + v + "\"";
    assert field + "" == field;
    QuotedFilename(pre, v, "");
    StripTrimmed(v);
  }
}
