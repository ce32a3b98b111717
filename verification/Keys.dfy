/** Job keys: one printer and the two parsers that read the keys back, one in the dequeue loop
    of the schedulers and one in the retry path. */
module Keys {
  import opened Basics

  const PREFIX := "fp:job:"

  datatype JobRef = JobRef(client: string, workflow: string, job: string)

  function JobKey(r: JobRef): string {
    PREFIX + r.client + ":" + r.workflow + ":" + r.job
  }

  /** Position of the first colon from `start` on, or the length if there is none. */
  function FindColon(s: string, start: nat): (i: nat)
    requires start <= |s|
    ensures start <= i <= |s| && (i < |s| ==> s[i] == ':') && ':' !in s[start..i]
    decreases |s| - start
  {
    if start == |s| || s[start] == ':' then start
    else
      var i := FindColon(s, start + 1);
      assert s[start..i] == [s[start]] + s[start + 1..i];
      i
  }

  /** The retry path: splits, then refuses empty parts. */
  function ParseRetryKey(key: string): Option<JobRef> {
    if !(PREFIX <= key) then None
    else
      var end := FindColon(key, |PREFIX|);
      if end == |key| then None
      else
        var client := key[|PREFIX|..end];
        var end2 := FindColon(key, end + 1);
        if end2 == |key| then None
        else
          var r := JobRef(client, key[end + 1..end2], key[end2 + 1..]);
          if r.client != "" && r.workflow != "" && r.job != "" then Some(r) else None
  }

  /** The dequeue loop: the same split with running positions; a refused key is skipped. */
  method ParseExecutionKey(key: string) returns (r: Option<JobRef>)
    ensures r == ParseRetryKey(key)
  {
    if !(PREFIX <= key) { return None; }
    var startPos := |PREFIX|;
    var endPos := FindColon(key, startPos);
    if endPos == |key| { return None; }
    var size := endPos - startPos;
    var client := key[startPos..startPos + size];
    startPos := endPos + 1;
    endPos := FindColon(key, startPos);
    if endPos == |key| { return None; }
    size := endPos - startPos;
    var workflow := key[startPos..startPos + size];
    startPos := endPos + 1;
    var job := key[startPos..];
    if client == "" || workflow == "" || job == "" { return None; }
    return Some(JobRef(client, workflow, job));
  }

  /** The references a key can carry. */
  predicate IsPlain(r: JobRef) {
    r.client != "" && r.workflow != "" && r.job != "" && ':' !in r.client && ':' !in r.workflow
  }

  lemma FindColonAfter(s: string, start: nat, part: string, rest: string)
    requires start <= |s| && s[start..] == part + ":" + rest && ':' !in part
    ensures FindColon(s, start) == start + |part|
    ensures s[start..start + |part|] == part && s[start + |part| + 1..] == rest
  {
    var n := start + |part|;
    assert s[start..][|part|] == ':' && s[n] == ':';
    forall k | start <= k < n ensures s[k] == part[k - start] && s[k] != ':' {
      assert s[start..][k - start] == part[k - start] && part[k - start] in part;
    }
    assert s[start..n] == part;
    assert s[n + 1..] == s[start..][|part| + 1..] == rest;
  }

  /** A printed key parses back to its parts if they are plain. */
  lemma PrintedParses(r: JobRef)
    requires IsPlain(r)
    ensures ParseRetryKey(JobKey(r)) == Some(r)
  {
    var key := JobKey(r);
    var tail := r.workflow + ":" + r.job;
    assert PREFIX <= key;
    assert key[|PREFIX|..] == r.client + ":" + tail;
    FindColonAfter(key, |PREFIX|, r.client, tail);
    FindColonAfter(key, |PREFIX| + |r.client| + 1, r.workflow, r.job);
  }

  /** Whatever parses is the print of its parts, and those are plain. */
  lemma ParsedPrints(key: string)
    requires ParseRetryKey(key).Some?
    ensures JobKey(ParseRetryKey(key).value) == key && IsPlain(ParseRetryKey(key).value)
  {
    var end := FindColon(key, |PREFIX|);
    var end2 := FindColon(key, end + 1);
    assert key == key[..|PREFIX|] + key[|PREFIX|..end] + ":" + key[end + 1..end2] + ":" + key[end2 + 1..];
  }

  /** Both parsers invert the printer on exactly the references whose client and workflow are
      free of colons and whose parts are not empty. */
  lemma RoundTripIffPlain(r: JobRef)
    ensures ParseRetryKey(JobKey(r)) == Some(r) <==> IsPlain(r)
  {
    if IsPlain(r) {
      PrintedParses(r);
    } else if ParseRetryKey(JobKey(r)).Some? {
      ParsedPrints(JobKey(r));
    }
  }

  lemma PlainKeysAreInjective(r: JobRef, r': JobRef)
    requires IsPlain(r) && IsPlain(r') && JobKey(r) == JobKey(r')
    ensures r == r'
  {
    PrintedParses(r);
    PrintedParses(r');
  }

  /** A colon in a client or workflow id makes two workflows share a key. */
  lemma ColonsCollide(a: string, b: string, c: string, job: string)
    ensures JobRef(a + ":" + b, c, job) != JobRef(a, b + ":" + c, job)
    ensures JobKey(JobRef(a + ":" + b, c, job)) == JobKey(JobRef(a, b + ":" + c, job))
  {
    assert |a + ":" + b| != |a|;
    assert JobKey(JobRef(a + ":" + b, c, job)) == PREFIX + a + ":" + b + ":" + c + ":" + job;
    assert JobKey(JobRef(a, b + ":" + c, job)) == PREFIX + a + ":" + b + ":" + c + ":" + job;
  }
}
