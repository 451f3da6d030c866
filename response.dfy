/** The caller-side `http.ResponseWriter` as the handler uses it: a header
    multimap that `Header().Add` appends to, a status line that the first
    `WriteHeader` fixes together with the header at that moment, and the body
    bytes written so far. */
module Response {
  import opened Wrappers
  import opened Escaping

  /** `http.Header`: each key maps to an ordered list of values. */
  type Header = map<string, seq<string>>

  /** The values of a key, empty when the key is absent. */
  function Values(h: Header, key: string): seq<string> {
    if key in h then h[key] else []
  }

  /** What `Add`ing every value of `up`, key by key and in each key's order,
      makes of `prior`: a key is present when it was before or when
      upstream has at least one value for it. */
  function Merge(prior: Header, up: Header): (r: Header)
    ensures forall k :: k in r <==> k in prior || Values(up, k) != []
  {
    map k | k in prior.Keys + up.Keys && (k in prior || Values(up, k) != []) :: Values(prior, k) + Values(up, k)
  }

  /** Relaying an empty upstream header changes nothing. */
  lemma MergeNothing(prior: Header)
    ensures Merge(prior, map[]) == prior
  {
    var m := Merge(prior, map[]);
    assert m.Keys == prior.Keys;
    forall k | k in prior ensures m[k] == prior[k] {
      assert Values(map[], k) == [];
    }
  }

  /** Per key, the relayed values are the prior ones followed by all the
      upstream ones, none dropped, merged or reordered. */
  lemma MergeAppends(prior: Header, up: Header, key: string)
    ensures Values(Merge(prior, up), key) == Values(prior, key) + Values(up, key)
  {
  }

  /** Keys upstream did not send keep exactly their prior values. */
  lemma MergeKeepsOtherKeys(prior: Header, up: Header, key: string)
    requires key !in up
    ensures key in Merge(prior, up) <==> key in prior
    ensures key in prior ==> Merge(prior, up)[key] == prior[key]
  {
  }

  /** Adding one more upstream key, whose values are `vals`, to the keys
      already relayed. */
  lemma MergeStep(prior: Header, done: Header, key: string, vals: seq<string>)
    requires key !in done
    ensures Merge(prior, done[key := vals]) ==
              if vals == [] then Merge(prior, done)
              else Merge(prior, done)[key := Values(prior, key) + vals]
  {
    var m1 := Merge(prior, done[key := vals]);
    var m2 := if vals == [] then Merge(prior, done) else Merge(prior, done)[key := Values(prior, key) + vals];
    forall k ensures k in m1 <==> k in m2 {
      StepValues(done, key, vals, k);
    }
    forall k | k in m1 ensures m1[k] == m2[k] {
      StepValues(done, key, vals, k);
      MergeAppends(prior, done[key := vals], k);
      MergeAppends(prior, done, k);
    }
  }

  lemma StepValues(done: Header, key: string, vals: seq<string>, k: string)
    requires key !in done
    ensures Values(done[key := vals], k) == if k == key then vals else Values(done, k)
    ensures Values(done, key) == []
  {
  }

  /** Relaying one more key onto an already-merged header is the same as
      merging that key along with the others. */
  lemma AddUpstreamKey(prior: Header, done: Header, key: string, vals: seq<string>)
    requires key !in done
    ensures Merge(prior, done[key := vals]) ==
              if vals == [] then Merge(prior, done)
              else Merge(prior, done)[key := Values(Merge(prior, done), key) + vals]
  {
    MergeStep(prior, done, key, vals);
    MergeAppends(prior, done, key);
    assert Values(done, key) == [];
    assert Values(Merge(prior, done), key) == Values(prior, key) + [] == Values(prior, key);
  }

  /** The status line and the header that went out with it. */
  datatype Head = Head(status: int, header: Header)

  /** Everything the caller can observe of a response. */
  datatype Reply = Reply(header: Header, sent: Option<Head>, body: string)

  /** `WriteHeader(code)`: the first call sends the status with the current
      header; later calls change nothing. */
  function Commit(sent: Option<Head>, code: int, header: Header): (r: Option<Head>)
    ensures sent.Some? ==> r == sent
    ensures sent.None? ==> r == Some(Head(code, header))
  {
    if sent.None? then Some(Head(code, header)) else sent
  }

  class ResponseWriter {
    var header: Header
    var sent: Option<Head>
    var body: string

    function Snapshot(): Reply
      reads this
    {
      Reply(header, sent, body)
    }

    constructor ()
      ensures header == map[] && sent.None? && body == []
    {
      header, sent, body := map[], None, [];
    }

    /** `w.Header().Add(key, value)`. */
    method AddHeader(key: string, value: string)
      modifies this
      ensures header == old(header)[key := Values(old(header), key) + [value]]
      ensures sent == old(sent) && body == old(body)
    {
      header := header[key := Values(header, key) + [value]];
    }

    /** `w.WriteHeader(code)`. */
    method WriteHeader(code: int)
      modifies this
      ensures sent == Commit(old(sent), code, old(header))
      ensures header == old(header) && body == old(body)
    {
      if sent.None? {
        sent := Some(Head(code, header));
      }
    }

    /** `w.Write(data)`: an unsent status becomes 200 first. */
    method Write(data: string)
      modifies this
      ensures sent == Commit(old(sent), 200, old(header))
      ensures body == old(body) + data && header == old(header)
    {
      WriteHeader(200);
      body := body + data;
    }

    /** `http.Error(w, msg, code)`: the status, then the message and a
        newline. */
    method Error(msg: string, code: int)
      modifies this
      ensures sent == Commit(old(sent), code, old(header))
      ensures body == old(body) + msg + "\n" && header == old(header)
    {
      WriteHeader(code);
      Write(msg + "\n");
    }

    /** The inner loop of main.go:108-110: the values of one key, in order. */
    method AddValues(key: string, vals: seq<string>)
      modifies this
      ensures header == if vals == [] then old(header) else old(header)[key := Values(old(header), key) + vals]
      ensures sent == old(sent) && body == old(body)
    {
      for i := 0 to |vals|
        invariant i == 0 ==> header == old(header)
        invariant i > 0 ==> header == old(header)[key := Values(old(header), key) + vals[..i]]
        invariant sent == old(sent) && body == old(body)
      {
        assert vals[..i + 1] == vals[..i] + [vals[i]];
        assert Values(header, key) == Values(old(header), key) + vals[..i];
        AddHeader(key, vals[i]);
        assert Values(old(header), key) + vals[..i] + [vals[i]] == Values(old(header), key) + vals[..i + 1];
      }
      assert vals[..|vals|] == vals;
    }

    /** The loop of main.go:107-111: every value of every upstream key is
        added, keys in whatever order the map yields them. */
    method AddAll(up: Header)
      modifies this
      ensures header == Merge(old(header), up)
      ensures sent == old(sent) && body == old(body)
    {
      var todo := up.Keys;
      ghost var done: Header := map[];
      MergeNothing(header);
      while todo != {}
        invariant todo <= up.Keys && done.Keys == up.Keys - todo
        invariant forall k | k in done :: done[k] == up[k]
        invariant header == Merge(old(header), done)
        invariant sent == old(sent) && body == old(body)
        decreases todo
      {
        var key :| key in todo;
        var vals := up[key];
        assert key !in done;
        AddUpstreamKey(old(header), done, key, vals);
        AddValues(key, vals);
        done := done[key := vals];
        todo := todo - {key};
      }
      assert done == up;
    }

    /** `io.Copy(w, io.LimitReader(src, limit))`, modelled as a loop of reads
        of at most `bufSize` bytes each (the chunk size is not the library's
        and does not change the result): the source yields `data` and then
        either ends or fails with `failure`. Returns the error `io.Copy`
        reports. */
    method CopyLimited(data: string, failure: Option<string>, limit: nat, bufSize: nat) returns (err: Option<string>)
      requires bufSize > 0
      modifies this
      ensures body == old(body) + Prefix(data, limit)
      ensures sent == if Prefix(data, limit) == [] then old(sent) else Commit(old(sent), 200, old(header))
      ensures header == old(header)
      ensures err == if |data| < limit then failure else None
    {
      var pos, remaining := 0, limit;
      while remaining > 0 && pos < |data|
        invariant 0 <= pos <= |data| && 0 <= remaining && pos + remaining == limit
        invariant body == old(body) + data[..pos] && header == old(header)
        invariant sent == if pos == 0 then old(sent) else Commit(old(sent), 200, old(header))
        decreases remaining
      {
        var n := Min(Min(bufSize, remaining), |data| - pos);
        Write(data[pos..pos + n]);
        assert data[..pos + n] == data[..pos] + data[pos..pos + n];
        pos, remaining := pos + n, remaining - n;
      }
      // The limit reader reports end of input once `limit` bytes were read;
      // otherwise the read that finds the source exhausted reports its end.
      assert pos == Min(|data|, limit);
      err := if remaining > 0 then failure else None;
    }
  }

  function Min(a: int, b: int): int {
    if a < b then a else b
  }

  /** What a reader capped at `limit` bytes yields of `data`. */
  function Prefix(data: string, limit: nat): (r: string)
    ensures |r| <= limit && |r| <= |data|
  {
    data[..Min(|data|, limit)]
  }

  /** The capped copy is the longest prefix that fits: all of a short body,
      exactly `limit` bytes of a long one, and always a prefix. */
  lemma PrefixIsLongestFit(data: string, limit: nat)
    ensures |data| <= limit ==> Prefix(data, limit) == data
    ensures |data| > limit ==> |Prefix(data, limit)| == limit
    ensures Prefix(data, limit) + data[|Prefix(data, limit)|..] == data
  {
  }
}
