/** The per-store breakers and buckets of internal/runtime. */
module Gates {
  import opened Common
  import opened Jobs
  import opened Breakers
  import Buckets

  datatype RateSpec = RateSpec(rate: real, burst: int)

  datatype View = View(
    breakers: map<Id, BreakerState>, buckets: map<Id, Buckets.BucketState>, rates: map<Id, RateSpec>)

  const EMPTY := View(map[], map[], map[])

  /** Ensure: a missing breaker is made; a bucket is made anew whenever the rate it was made for changes. */
  function EnsureView(g: View, id: Id, spec: RateSpec, now: Time): View {
    var b := WithBreaker(g, id);
    if id in b.rates && b.rates[id] == spec then b
    else b.(buckets := b.buckets[id := Buckets.New(spec.rate, spec.burst, now)], rates := b.rates[id := spec])
  }

  /** Breaker(id): a missing breaker is made. */
  function WithBreaker(g: View, id: Id): View {
    if id in g.breakers then g else g.(breakers := g.breakers[id := FRESH])
  }

  /** Bucket(id): a missing bucket is made for the default rate, which is not remembered as the rate
      it was made for. */
  function WithBucket(g: View, id: Id, now: Time): View {
    if id in g.buckets then g else g.(buckets := g.buckets[id := Buckets.New(5.0, 5, now)])
  }

  /** Ensure makes a closed breaker where there is none, and a full bucket where there is none for this
      very rate and burst; it touches nothing else. */
  lemma EnsureMeans(g: View, id: Id, rate: real, burst: int, now: Time)
    requires rate > 0.0 && burst >= 1
    ensures var v := EnsureView(g, id, RateSpec(rate, burst), now);
      && v.breakers == (if id in g.breakers then g.breakers else g.breakers[id := BreakerState(Closed, 0, 0, 0)])
      && v.rates == g.rates[id := RateSpec(rate, burst)]
      && v.buckets == if id in g.rates && g.rates[id] == RateSpec(rate, burst) then g.buckets
                      else g.buckets[id := Buckets.BucketState(rate, burst as real, burst as real, now)]
  {
  }

  /** Breaker(id) and Bucket(id): what is there stays as it is; else a closed breaker, or a full bucket of
      5 a second and a burst of 5. */
  lemma MissingMeans(g: View, id: Id, now: Time)
    ensures WithBreaker(g, id) ==
      if id in g.breakers then g else g.(breakers := g.breakers[id := BreakerState(Closed, 0, 0, 0)])
    ensures WithBucket(g, id, now) ==
      if id in g.buckets then g else g.(buckets := g.buckets[id := Buckets.BucketState(5.0, 5.0, 5.0, now)])
  {
  }

  class Registry {
    const cfg: Settings
    var breakers: map<Id, Breaker>
    var buckets: map<Id, Buckets.Bucket>
    var rates: map<Id, RateSpec>
    ghost var view: View

    ghost predicate Valid()
      reads this, breakers.Values, buckets.Values
    {
      && view.breakers.Keys == breakers.Keys && view.buckets.Keys == buckets.Keys && view.rates == rates
      && (forall id :: id in breakers ==>
            breakers[id].cfg == Normalize(cfg) && view.breakers[id] == breakers[id].Fields())
      && (forall id :: id in buckets ==> view.buckets[id] == buckets[id].Fields() && buckets[id].rate > 0.0)
      && (forall a, b :: a in breakers && b in breakers && a != b ==> breakers[a] != breakers[b])
      && (forall a, b :: a in buckets && b in buckets && a != b ==> buckets[a] != buckets[b])
      && (forall id :: id in rates ==> id in buckets)
    }

    constructor (cfg: Settings)
      ensures Valid() && view == EMPTY && this.cfg == cfg
    {
      this.cfg := cfg;
      breakers, buckets, rates, view := map[], map[], map[], EMPTY;
    }

    method Ensure(id: Id, rate: real, burst: int, now: Time)
      requires Valid()
      modifies this
      ensures Valid() && view == EnsureView(old(view), id, RateSpec(rate, burst), now)
      ensures id in breakers && id in buckets
      ensures fresh(breakers.Values - old(breakers.Values)) && fresh(buckets.Values - old(buckets.Values))
    {
      EnsureBreaker(id);
      EnsureBucket(id, rate, burst, now);
    }

    method EnsureBreaker(id: Id)
      requires Valid()
      modifies this
      ensures Valid() && id in breakers && buckets == old(buckets)
      ensures view == WithBreaker(old(view), id)
      ensures fresh(breakers.Values - old(breakers.Values))
    {
      if id !in breakers {
        var b := new Breaker(cfg);
        breakers := breakers[id := b];
        view := view.(breakers := view.breakers[id := FRESH]);
      }
    }

    method EnsureBucket(id: Id, rate: real, burst: int, now: Time)
      requires Valid() && id in breakers
      modifies this
      ensures Valid() && id in buckets && breakers == old(breakers)
      ensures view == EnsureView(old(view), id, RateSpec(rate, burst), now)
      ensures fresh(buckets.Values - old(buckets.Values))
    {
      var spec := RateSpec(rate, burst);
      if id !in rates || rates[id] != spec {
        var b := new Buckets.Bucket(rate, burst, now);
        buckets := buckets[id := b];
        rates := rates[id := spec];
        view := view.(buckets := view.buckets[id := Buckets.New(rate, burst, now)], rates := rates);
      }
    }

    method MakeBucket(id: Id, now: Time)
      requires Valid()
      modifies this
      ensures Valid() && id in buckets && breakers == old(breakers)
      ensures view == WithBucket(old(view), id, now)
      ensures fresh(buckets.Values - old(buckets.Values))
    {
      if id !in buckets {
        var b := new Buckets.Bucket(5.0, 5, now);
        buckets := buckets[id := b];
        view := view.(buckets := view.buckets[id := Buckets.New(5.0, 5, now)]);
      }
    }

    /** Breaker(id).Allow(). */
    method Allow(id: Id, now: Time) returns (d: Decision)
      requires Valid()
      modifies this, breakers.Values
      ensures Valid() && buckets == old(buckets) && id in breakers && fresh(breakers.Values - old(breakers.Values))
      ensures var v := WithBreaker(old(view), id);
        var (b, o) := AllowOf(v.breakers[id], Normalize(cfg), now);
        d == o && view == v.(breakers := v.breakers[id := b])
    {
      EnsureBreaker(id);
      d := AllowOn(id, now);
    }

    method AllowOn(id: Id, now: Time) returns (d: Decision)
      requires Valid() && id in breakers
      modifies this`view, breakers[id]
      ensures Valid()
      ensures var (b, o) := AllowOf(old(view).breakers[id], Normalize(cfg), now);
        d == o && view == old(view).(breakers := old(view).breakers[id := b])
    {
      d := breakers[id].Allow(now);
      view := view.(breakers := view.breakers[id := AllowOf(view.breakers[id], Normalize(cfg), now).0]);
    }

    /** Breaker(id).Success(). */
    method Success(id: Id)
      requires Valid()
      modifies this, breakers.Values
      ensures Valid() && buckets == old(buckets) && id in breakers && fresh(breakers.Values - old(breakers.Values))
      ensures var v := WithBreaker(old(view), id); view == v.(breakers := v.breakers[id := SuccessOf(v.breakers[id])])
    {
      EnsureBreaker(id);
      SuccessOn(id);
    }

    method SuccessOn(id: Id)
      requires Valid() && id in breakers
      modifies this`view, breakers[id]
      ensures Valid()
      ensures view == old(view).(breakers := old(view).breakers[id := SuccessOf(old(view).breakers[id])])
    {
      breakers[id].Success();
      view := view.(breakers := view.breakers[id := SuccessOf(view.breakers[id])]);
    }

    /** Breaker(id).Failure(). */
    method Failure(id: Id, now: Time)
      requires Valid()
      modifies this, breakers.Values
      ensures Valid() && buckets == old(buckets) && id in breakers && fresh(breakers.Values - old(breakers.Values))
      ensures var v := WithBreaker(old(view), id);
        view == v.(breakers := v.breakers[id := FailureOf(v.breakers[id], Normalize(cfg), now)])
    {
      EnsureBreaker(id);
      FailureOn(id, now);
    }

    method FailureOn(id: Id, now: Time)
      requires Valid() && id in breakers
      modifies this`view, breakers[id]
      ensures Valid()
      ensures view ==
        old(view).(breakers := old(view).breakers[id := FailureOf(old(view).breakers[id], Normalize(cfg), now)])
    {
      breakers[id].Failure(now);
      view := view.(breakers := view.breakers[id := FailureOf(view.breakers[id], Normalize(cfg), now)]);
    }

    /** Bucket(id).Take(). */
    method Take(id: Id, now: Time) returns (wait: Time)
      requires Valid()
      modifies this, buckets.Values
      ensures Valid() && breakers == old(breakers) && id in buckets && fresh(buckets.Values - old(buckets.Values))
      ensures var v := WithBucket(old(view), id, now);
        v.buckets[id].rate > 0.0 &&
        var (b, w) := Buckets.TakeOf(v.buckets[id], now);
        wait == w && view == v.(buckets := v.buckets[id := b])
    {
      MakeBucket(id, now);
      wait := TakeOn(id, now);
    }

    method TakeOn(id: Id, now: Time) returns (wait: Time)
      requires Valid() && id in buckets
      modifies this`view, buckets[id]
      ensures Valid() && old(view).buckets[id].rate > 0.0
      ensures var (b, w) := Buckets.TakeOf(old(view).buckets[id], now);
        wait == w && view == old(view).(buckets := old(view).buckets[id := b])
    {
      wait := buckets[id].Take(now);
      view := view.(buckets := view.buckets[id := Buckets.TakeOf(view.buckets[id], now).0]);
    }
  }
}
