/** The fetcher's write phase: the destination path, the block size, the
    chunking of the response body and the loop that writes the chunks into a
    freshly opened file while the progress counter advances. */
module Fetch {
  import opened Types
  import opened PyStr

  /** `os.path.join(dir, name)` on POSIX: a relative `name` goes under `dir`,
      after a separator; an absolute `name` replaces `dir`. */
  function Join(dir: string, name: string): (p: string)
    ensures |name| <= |p| && p[|p| - |name|..] == name
    ensures !("/" <= name) ==> dir <= p && |dir| <= |p| - |name| <= |dir| + 1
    ensures !("/" <= name) && dir != "" ==> p[|p| - |name| - 1] == '/'
    ensures "/" <= name ==> p == name
  {
    if "/" <= name then name
    else if dir == "" || dir[|dir| - 1] == '/' then dir + name
    else dir + "/" + name
  }

  /** The bytes asked for per chunk: `download_chunks` kibibytes. */
  function BlockSize(downloadChunks: int): (n: int)
    requires 1 <= downloadChunks <= 12
    ensures 1024 <= n <= 12288 && n % 1024 == 0
  {
    downloadChunks * 1024
  }

  /** The chunks the body stream yields for a block size of `n`: full blocks,
      then a shorter last block; never an empty chunk. */
  function Split(body: seq<Byte>, n: nat): (cs: seq<seq<Byte>>)
    requires n > 0
    ensures forall i :: 0 <= i < |cs| ==> 0 < |cs[i]| <= n
    ensures forall i :: 0 <= i < |cs| - 1 ==> |cs[i]| == n
    decreases |body|
  {
    if |body| == 0 then []
    else if |body| <= n then [body]
    else [body[..n]] + Split(body[n..], n)
  }

  /** The chunks joined in order. */
  function Concat(cs: seq<seq<Byte>>): seq<Byte> {
    if cs == [] then [] else Concat(cs[..|cs| - 1]) + cs[|cs| - 1]
  }

  /** The sum of the chunk lengths: what the progress counter reports. */
  function TotalLength(cs: seq<seq<Byte>>): nat {
    if cs == [] then 0 else TotalLength(cs[..|cs| - 1]) + |cs[|cs| - 1]|
  }

  lemma {:induction false} ConcatLength(cs: seq<seq<Byte>>)
    ensures |Concat(cs)| == TotalLength(cs)
  {
    if cs != [] {
      ConcatLength(cs[..|cs| - 1]);
    }
  }

  lemma {:induction false} ConcatCons(c: seq<Byte>, cs: seq<seq<Byte>>)
    ensures Concat([c] + cs) == c + Concat(cs)
    decreases |cs|
  {
    if cs != [] {
      var front := cs[..|cs| - 1];
      assert ([c] + cs)[..|cs|] == [c] + front;
      ConcatCons(c, front);
    } else {
      assert ([c] + cs)[..0] == [];
    }
  }

  /** Writing the first `k` chunks of the split body writes a prefix of the
      body, and writing all of them writes the whole body. */
  lemma {:induction false} SplitPrefix(body: seq<Byte>, n: nat, k: nat)
    requires n > 0 && k <= |Split(body, n)|
    ensures Concat(Split(body, n)[..k]) <= body
    ensures k == |Split(body, n)| ==> Concat(Split(body, n)[..k]) == body
    decreases |body|
  {
    var cs := Split(body, n);
    if k == 0 {
      assert cs[..0] == [];
    } else if |body| <= n {
      assert cs[..k] == [body];
      assert Concat([body]) == Concat([]) + body;
    } else {
      var tail := body[n..];
      var rest := Split(tail, n)[..k - 1];
      assert cs == [body[..n]] + Split(tail, n);
      assert cs[..k] == [body[..n]] + rest;
      SplitPrefix(tail, n, k - 1);
      ConcatCons(body[..n], rest);
      var front := Concat(rest);
      assert front <= tail;
      assert body == body[..n] + tail;
      assert body[..n] + front <= body;
    }
  }

  /** The split body joins back to the body. */
  lemma SplitConcat(body: seq<Byte>, n: nat)
    requires n > 0
    ensures Concat(Split(body, n)) == body
  {
    var cs := Split(body, n);
    SplitPrefix(body, n, |cs|);
    assert cs[..|cs|] == cs;
  }

  /** The number of chunks the stream delivers before it ends or raises. */
  function Delivered(cs: seq<seq<Byte>>, fault: Option<nat>): (k: nat)
    ensures k <= |cs|
    ensures fault.None? ==> k == |cs|
    ensures fault.Some? ==> k <= fault.value
  {
    match fault
    case None => |cs|
    case Some(f) => if f < |cs| then f else |cs|
  }

  /** The `with open(path, 'wb')` block: the file is created empty, then each
      delivered chunk advances the progress counter and is appended. The stream
      raising after `k` chunks leaves those `k` chunks written. */
  method WriteChunks(fs: FileSystem, path: string, cs: seq<seq<Byte>>, fault: Option<nat>)
    returns (fs': FileSystem, completed: bool, ghost reported: nat)
    ensures completed <==> fault.None?
    ensures fs' == fs[path := Concat(cs[..Delivered(cs, fault)])]
    ensures reported == TotalLength(cs[..Delivered(cs, fault)]) == |fs'[path]|
  {
    fs' := fs[path := []];
    reported := 0;
    var k := Delivered(cs, fault);
    for i := 0 to k
      invariant fs' == fs[path := Concat(cs[..i])]
      invariant reported == TotalLength(cs[..i])
    {
      assert cs[..i + 1][..i] == cs[..i];
      reported := reported + |cs[i]|;
      fs' := fs'[path := fs'[path] + cs[i]];
    }
    ConcatLength(cs[..k]);
    completed := fault.None?;
  }

  /** Whether `int(...)` accepts the `content-length` field (a missing field reads as 0). */
  predicate ContentLengthOk(headers: Headers) {
    "content-length" !in headers || IsIntText(headers["content-length"])
  }

  /** The write phase as a whole, the `try` block of the download routine:
      the new filesystem, and whether the block completed without raising.
      Reading the size and computing the block size come before the file is
      opened, so a failure there writes nothing. */
  function WritePhase(fs: FileSystem, path: string, headers: Headers, body: seq<Byte>,
                      fault: Option<nat>, downloadChunks: Option<int>): (FileSystem, bool)
    requires downloadChunks.Some? ==> 1 <= downloadChunks.value <= 12
  {
    if !ContentLengthOk(headers) || downloadChunks.None? then (fs, false)
    else
      var cs := Split(body, BlockSize(downloadChunks.value));
      (fs[path := Concat(cs[..Delivered(cs, fault)])], fault.None?)
  }

  /** What the write phase leaves behind: only `path` changes; on completion
      it holds the whole body, otherwise (if it was created at all) a prefix
      of the body. */
  lemma WritePhaseResult(fs: FileSystem, path: string, headers: Headers, body: seq<Byte>,
                         fault: Option<nat>, downloadChunks: Option<int>)
    requires downloadChunks.Some? ==> 1 <= downloadChunks.value <= 12
    ensures var (fs', ok) := WritePhase(fs, path, headers, body, fault, downloadChunks);
      && (ok <==> ContentLengthOk(headers) && downloadChunks.Some? && fault.None?)
      && (ok ==> fs' == fs[path := body])
      && (!ContentLengthOk(headers) || downloadChunks.None? ==> fs' == fs)
      && (ContentLengthOk(headers) && downloadChunks.Some? ==>
            path in fs' && fs' == fs[path := fs'[path]] && fs'[path] <= body)
  {
    if ContentLengthOk(headers) && downloadChunks.Some? {
      var n := BlockSize(downloadChunks.value);
      var cs := Split(body, n);
      var d := Delivered(cs, fault);
      SplitPrefix(body, n, d);
      if fault.None? {
        SplitConcat(body, n);
        assert cs[..d] == cs;
      }
    }
  }

  /** The write phase only ever adds the destination: a file present before
      it, at another path, is still there with the same bytes. */
  lemma WritePhaseKeepsOthers(fs: FileSystem, path: string, headers: Headers, body: seq<Byte>,
                              fault: Option<nat>, downloadChunks: Option<int>)
    requires downloadChunks.Some? ==> 1 <= downloadChunks.value <= 12
    requires path !in fs
    ensures var (fs', ok) := WritePhase(fs, path, headers, body, fault, downloadChunks);
      forall p :: p in fs ==> p in fs' && fs'[p] == fs[p]
  {
    var (fs', ok) := WritePhase(fs, path, headers, body, fault, downloadChunks);
    forall p | p in fs ensures p in fs' && fs'[p] == fs[p] {
      assert p != path;
    }
  }
}
