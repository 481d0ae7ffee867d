/** `signal/mytbf.c` on an array updated in place, routine by routine, against `BucketTable`. */
module TokenBuckets {
  import opened Slots
  import opened BucketTable

  class Buckets {
    const jobs: array<Option<Bucket>>

    ghost predicate Valid() {
      jobs.Length == MAX_TBF
    }

    constructor ()
      ensures Valid() && fresh(jobs) && jobs[..] == seq(MAX_TBF, _ => None)
    {
      jobs := new Option<Bucket>[MAX_TBF](_ => None);
    }

    /** `handle` */
    method Handle()
      requires Valid()
      modifies jobs
      ensures jobs[..] == BucketTable.Handle(old(jobs[..]))
    {
      var i := 0;
      while i < MAX_TBF
        invariant 0 <= i <= MAX_TBF
        invariant forall j :: 0 <= j < i ==> jobs[j] == Credit(old(jobs[j]))
        invariant forall j :: i <= j < MAX_TBF ==> jobs[j] == old(jobs[j])
      {
        var p := jobs[i];
        if p.Some? {
          jobs[i] := Some(p.value.(token := p.value.token + p.value.cps, ticks := p.value.ticks + 1));
        }
        i := i + 1;
      }
    }

    /** `get_pos` */
    method GetPos() returns (r: int)
      requires Valid()
      ensures r == FreePos(jobs[..], 0)
    {
      var i := 0;
      while i < MAX_TBF
        invariant 0 <= i <= MAX_TBF
        invariant FreePos(jobs[..], 0) == FreePos(jobs[..], i)
      {
        if jobs[i].None? { return i; }
        i := i + 1;
      }
      return -1;
    }

    /** `mytbf_init` */
    method Init(cps: int, burst: int) returns (id: int)
      requires Valid()
      modifies jobs
      ensures (jobs[..], id) == Create(old(jobs[..]), cps, burst)
      ensures id == -1 <==> forall i :: 0 <= i < jobs.Length ==> old(jobs[i]).Some?
      ensures id >= 0 ==> id < jobs.Length && old(jobs[id]).None? && jobs[id].Some? && IsNew(jobs[id].value, cps, burst)
    {
      CreateReturns(jobs[..], cps, burst);
      id := GetPos();
      if id < 0 { return -1; }
      jobs[id] := Some(Bucket(cps, burst, 0, id, 0, 0, 0, 0));
    }

    /** `mytbf_returntoken` */
    method ReturnToken(id: nat, token: int) returns (r: int)
      requires Valid() && LiveId(jobs[..], id)
      modifies jobs
      ensures r == token
      ensures jobs[..] == Step(old(jobs[..]), EReturn(id, token))
    {
      var p := jobs[id].value;
      var t := p.token + token;
      p := p.(token := t, returned := p.returned + token);
      if t < p.burst {
        p := p.(token := t);
      } else {
        p := p.(token := p.burst, clipped := p.clipped + t - p.burst);
      }
      jobs[id] := Some(p);
      return token;
    }

    /** The table after `n` ticks. */
    static ghost function Ticked(jobs: Table, n: nat): (r: Table)
      ensures |r| == |jobs| && forall i :: 0 <= i < |jobs| ==> r[i].Some? == jobs[i].Some?
    {
      if n == 0 then jobs else BucketTable.Handle(Ticked(jobs, n - 1))
    }

    /**
     `mytbf_fetchtoken`, with `late` ticks between a test that finds the bucket empty and the pause it
     leads to.  A filled bucket is not waited for; an empty one is waited for through these ticks and
     the one that ends the pause, even if the first of them has brought tokens.  Then the fetch takes
     `Min(token, n)`.  An empty bucket that is never credited is waited for for ever.
     */
    method FetchToken(id: nat, token: int, late: nat) returns (r: int, ghost waits: nat)
      requires Valid() && LiveId(jobs[..], id)
      requires jobs[id].value.token == 0 ==> jobs[id].value.cps != 0
      modifies jobs
      ensures waits == if old(jobs[id].value.token) == 0 then late + 1 else 0
      ensures Enabled(Ticked(old(jobs[..]), waits), EFetch(id, token))
      ensures jobs[..] == Step(Ticked(old(jobs[..]), waits), EFetch(id, token))
      ensures r == TakeOut(Ticked(old(jobs[..]), waits)[id].value, token).1
      ensures token >= 1 && old(jobs[id].value.token) >= 0 && old(jobs[id].value.cps) >= 0 ==> 1 <= r <= token
    {
      waits := 0;
      while jobs[id].value.token == 0
        invariant waits == 0 || waits == late + 1
        invariant jobs[..] == Ticked(old(jobs[..]), waits) && LiveId(jobs[..], id)
        invariant jobs[id].value.cps == old(jobs[id].value.cps)
        invariant waits == 0 ==> jobs[id].value.token == old(jobs[id].value.token)
        invariant waits > 0 ==> old(jobs[id].value.token) == 0 && jobs[id].value.token != 0
        invariant waits > 0 && jobs[id].value.cps >= 0 ==> jobs[id].value.token > 0
        decreases late + 1 - waits
      {
        TickedToken(jobs[..], id, late + 1);
        Deliver(late);
        Handle();
        waits := late + 1;
      }
      var p := jobs[id].value;
      r := if p.token < token then p.token else token;
      jobs[id] := Some(p.(token := p.token - r, fetched := p.fetched + r));
    }

    method Deliver(n: nat)
      requires Valid()
      modifies jobs
      ensures jobs[..] == Ticked(old(jobs[..]), n)
    {
      var i := 0;
      while i < n
        invariant 0 <= i <= n && jobs[..] == Ticked(old(jobs[..]), i)
      {
        Handle();
        i := i + 1;
      }
    }

    /** Ticks move the count in the direction of the rate. */
    static lemma {:induction false} TickedToken(jobs: Table, id: nat, n: nat)
      requires LiveId(jobs, id)
      ensures LiveId(Ticked(jobs, n), id)
      ensures var b, b' := jobs[id].value, Ticked(jobs, n)[id].value;
        && b'.cps == b.cps
        && (b.cps > 0 && n > 0 ==> b'.token > b.token) && (b.cps < 0 && n > 0 ==> b'.token < b.token)
      decreases n
    {
      if n > 0 { TickedToken(jobs, id, n - 1); }
    }

    /** `mytbf_destroy` */
    method Destroy(id: nat) returns (r: int)
      requires Valid() && LiveId(jobs[..], id) && Inv(jobs[..])
      modifies jobs
      ensures r == 1 && jobs[..] == BucketTable.Destroy(old(jobs[..]), id) && jobs[..] == old(jobs[..])[id := None]
    {
      var p := jobs[id].value;
      jobs[p.pos] := None;
      return 1;
    }
  }
}
