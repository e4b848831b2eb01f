/** TXT records of an ACME order (dns-01, section 8.4 of RFC 8555): what is written is cleared again. */
module Challenges {
  /** One TXT record of the zone. */
  datatype Txt = Txt(name: string, value: string)

  /** An authorization of the order, and the digest its record must show. */
  datatype Challenge = Challenge(identifier: string, value: string)

  /** `trim_start_matches("*.")`: every leading one. */
  function Base(identifier: string): string {
    if "*." <= identifier then Base(identifier[2..]) else identifier
  }

  function RecordFor(p: Challenge): Txt {
    Txt("_acme-challenge." + Base(p.identifier), p.value)
  }

  /** Apex and wildcard share one record name. */
  lemma WildcardSharesName(apex: string, v: string, w: string)
    ensures RecordFor(Challenge("*." + apex, v)).name == RecordFor(Challenge(apex, w)).name
  {
    assert ("*." + apex)[2..] == apex;
  }

  function Stars(k: nat): string {
    if k == 0 then "" else "*." + Stars(k - 1)
  }

  /** The base is what is left when all leading wildcard labels are gone, and nothing more is. */
  lemma {:induction false} BaseIs(identifier: string)
    ensures !("*." <= Base(identifier)) && exists k: nat :: identifier == Stars(k) + Base(identifier)
    decreases |identifier|
  {
    if "*." <= identifier {
      BaseIs(identifier[2..]);
      var k: nat :| identifier[2..] == Stars(k) + Base(identifier[2..]);
      OneMoreStar(identifier, k, Base(identifier));
    } else {
      assert identifier == Stars(0) + Base(identifier);
    }
  }

  lemma OneMoreStar(identifier: string, k: nat, base: string)
    requires "*." <= identifier && identifier[2..] == Stars(k) + base
    ensures identifier == Stars(k + 1) + base
  {
    assert identifier == "*." + identifier[2..];
    assert "*." + (Stars(k) + base) == "*." + Stars(k) + base;
  }

  lemma {:induction false} BaseOf(k: nat, apex: string)
    requires !("*." <= apex)
    ensures Base(Stars(k) + apex) == apex
  {
    if k == 0 {
      assert Stars(0) + apex == apex;
    } else {
      var id := Stars(k) + apex;
      assert id == "*." + (Stars(k - 1) + apex) && id[2..] == Stars(k - 1) + apex;
      BaseOf(k - 1, apex);
    }
  }

  /** The record of a domain, and of any wildcard of it, stands under `_acme-challenge.` and the domain's own name. */
  lemma RecordStandsUnder(k: nat, apex: string, value: string)
    requires !("*." <= apex)
    ensures RecordFor(Challenge(Stars(k) + apex, value)) == Txt("_acme-challenge." + apex, value)
  {
    BaseOf(k, apex);
  }

  /** How the provider's answers go: creates by their number, deletes by record. */
  datatype Weather = Weather(creates: nat -> bool, deletes: nat -> bool)

  /** The next `n` creates go well. */
  predicate AllCreated(w: Weather, from: nat, n: nat) {
    forall i :: from <= i < from + n ==> w.creates(i)
  }

  /** The ids a clear deletes: it stops at the first that fails. */
  function Deleted(ids: seq<nat>, w: Weather): set<nat> {
    if ids == [] || !w.deletes(ids[0]) then {} else {ids[0]} + Deleted(ids[1..], w)
  }

  lemma {:induction false} DeletedSound(ids: seq<nat>, w: Weather)
    ensures forall id :: id in Deleted(ids, w) ==> id in ids && w.deletes(id)
    ensures (forall id :: id in ids ==> w.deletes(id)) ==> forall id :: id in ids ==> id in Deleted(ids, w)
  {
    if ids != [] && w.deletes(ids[0]) {
      DeletedSound(ids[1..], w);
      assert ids == [ids[0]] + ids[1..];
    }
  }

  /** A clear deletes the ids in order, up to the first that fails. */
  lemma {:induction false} DeletedIs(ids: seq<nat>, w: Weather, id: nat)
    ensures id in Deleted(ids, w) <==>
            exists k :: 0 <= k < |ids| && ids[k] == id && forall i :: 0 <= i <= k ==> w.deletes(ids[i])
  {
    if ids != [] && w.deletes(ids[0]) {
      DeletedIs(ids[1..], w, id);
      if id in Deleted(ids[1..], w) {
        var k :| 0 <= k < |ids[1..]| && ids[1..][k] == id && forall i :: 0 <= i <= k ==> w.deletes(ids[1..][i]);
        assert ids[k + 1] == id;
        forall i | 0 <= i <= k + 1
          ensures w.deletes(ids[i])
        {
          assert i > 0 ==> ids[i] == ids[1..][i - 1];
        }
      }
      if exists k :: 0 <= k < |ids| && ids[k] == id && forall i :: 0 <= i <= k ==> w.deletes(ids[i]) {
        var k :| 0 <= k < |ids| && ids[k] == id && forall i :: 0 <= i <= k ==> w.deletes(ids[i]);
        if k > 0 {
          assert ids[1..][k - 1] == id;
          forall i | 0 <= i <= k - 1
            ensures w.deletes(ids[1..][i])
          {
            assert ids[1..][i] == ids[i + 1];
          }
        }
      }
    }
  }

  /** The first `k` ids. */
  function FirstIds(ids: seq<nat>, k: nat): set<nat>
    requires k <= |ids|
  {
    if k == 0 then {} else FirstIds(ids, k - 1) + {ids[k - 1]}
  }

  lemma {:induction false} FirstIdsShift(ids: seq<nat>, k: nat)
    requires 0 < k <= |ids|
    ensures FirstIds(ids, k) == {ids[0]} + FirstIds(ids[1..], k - 1)
  {
    if k > 1 {
      FirstIdsShift(ids, k - 1);
    }
  }

  lemma {:induction false} DeletedStops(ids: seq<nat>, w: Weather, k: nat)
    requires k <= |ids| && forall i :: 0 <= i < k ==> w.deletes(ids[i])
    ensures Deleted(ids, w) == FirstIds(ids, k) + Deleted(ids[k..], w)
    decreases k
  {
    if k == 0 {
      assert ids[0..] == ids;
    } else {
      DeletedStops(ids[1..], w, k - 1);
      assert ids[1..][k - 1..] == ids[k..];
      FirstIdsShift(ids, k);
    }
  }

  /** A provider with an API (Cloudflare, Porkbun): the zone, and which records were created for which domain. */
  class Provider {
    var zone: map<nat, Txt>
    var recordIds: map<string, seq<nat>>
    var next: nat
    var attempts: nat

    /** Ids are fresh when they are given out. */
    ghost predicate Valid()
      reads this
    {
      && (forall id :: id in zone ==> id < next)
      && (forall d :: d in recordIds ==> forall id :: id in recordIds[d] ==> id < next)
      && Separate(recordIds)
    }

    /** Create the record, and remember its id; a create that fails leaves none. */
    method WriteChallenge(domain: string, value: string, w: Weather) returns (ok: bool)
      requires Valid()
      modifies this
      ensures Valid() && attempts == old(attempts) + 1 && ok == w.creates(old(attempts))
      ensures !ok ==> zone == old(zone) && recordIds == old(recordIds) && next == old(next)
      ensures ok ==> next == old(next) + 1 && old(next) !in old(zone)
      ensures ok ==> zone == old(zone)[old(next) := Txt("_acme-challenge." + domain, value)]
      ensures ok ==> recordIds == old(recordIds)[domain := Ids(old(recordIds), domain) + [old(next)]]
    {
      ok := w.creates(attempts);
      attempts := attempts + 1;
      if ok {
        zone := zone[next := Txt("_acme-challenge." + domain, value)];
        recordIds := recordIds[domain := Ids(recordIds, domain) + [next]];
        next := next + 1;
      }
    }

    /** Forget the domain's ids, then delete the records until one delete fails. */
    method ClearChallenge(domain: string, w: Weather) returns (ok: bool)
      requires Valid()
      modifies this`zone, this`recordIds
      ensures Valid() && recordIds == old(recordIds) - {domain}
      ensures zone == old(zone) - Deleted(Ids(old(recordIds), domain), w)
      ensures ok <==> forall id :: id in Ids(old(recordIds), domain) ==> w.deletes(id)
    {
      var ids := Ids(recordIds, domain);
      recordIds := recordIds - {domain};
      ghost var before := zone;
      for k := 0 to |ids|
        invariant Valid() && recordIds == old(recordIds) - {domain}
        invariant forall i :: 0 <= i < k ==> w.deletes(ids[i])
        invariant zone == before - FirstIds(ids, k)
      {
        if !w.deletes(ids[k]) {
          DeletedStops(ids, w, k);
          assert ids[k..][0] == ids[k] && ids[k] in ids;
          return false;
        }
        zone := zone - {ids[k]};
      }
      DeletedStops(ids, w, |ids|);
      return true;
    }
  }

  function Ids(recordIds: map<string, seq<nat>>, domain: string): seq<nat> {
    if domain in recordIds then recordIds[domain] else []
  }

  /** No id is remembered for two domains. */
  predicate Separate(recordIds: map<string, seq<nat>>) {
    forall d, e, id :: d in recordIds && e in recordIds && id in recordIds[d] && id in recordIds[e] ==> d == e
  }

  /** The ids still remembered. */
  function Remembered(recordIds: map<string, seq<nat>>): set<nat> {
    set d, id | d in recordIds && id in recordIds[d] :: id
  }

  // ---- one order ----

  /** The zone now, against the zone before the order: `mine` are the records the order created. */
  ghost predicate Grown(before: map<nat, Txt>, now: map<nat, Txt>, mine: set<nat>) {
    now.Keys == before.Keys + mine && before.Keys !! mine && forall id :: id in before ==> now[id] == before[id]
  }

  /** The domains a record has been written for. */
  function Domains(written: seq<string>): set<string> {
    set i | 0 <= i < |written| :: written[i]
  }

  class Issuer {
    const provider: Provider

    constructor (provider: Provider)
      ensures this.provider == provider
    {
      this.provider := provider;
    }

    /** The write loop of `issue_inner`. */
    method WriteAll(pending: seq<Challenge>, w: Weather) returns (written: seq<string>, ok: bool, ghost mine: set<nat>)
      requires provider.Valid() && provider.recordIds == map[]
      modifies provider
      ensures provider.Valid()
      ensures Grown(old(provider.zone), provider.zone, mine)
      ensures provider.recordIds.Keys == Domains(written) && Remembered(provider.recordIds) == mine
      ensures ok ==> Present(provider.zone, mine, pending)
      ensures ok <==> AllCreated(w, old(provider.attempts), |pending|)
    {
      hide Remembered, Grown, Domains, Present, Base;
      written, mine := [], {};
      NothingWritten(provider.zone);
      for n := 0 to |pending|
        invariant provider.Valid()
        invariant provider.attempts == old(provider.attempts) + n && AllCreated(w, old(provider.attempts), n)
        invariant Grown(old(provider.zone), provider.zone, mine) && Present(provider.zone, mine, pending[..n])
        invariant provider.recordIds.Keys == Domains(written) && Remembered(provider.recordIds) == mine
      {
        var base := Base(pending[n].identifier);
        ghost var zone, remembered, id := provider.zone, provider.recordIds, provider.next;
        ok := provider.WriteChallenge(base, pending[n].value, w);
        if !ok {
          return;
        }
        RememberOne(remembered, base, id);
        GrownPlus(old(provider.zone), zone, mine, pending[..n], id, pending[n]);
        DomainsOne(written, base);
        assert pending[..n] + [pending[n]] == pending[..n + 1];
        written := written + [base];
        mine := mine + {id};
      }
      assert pending[..|pending|] == pending;
      ok := true;
    }

    /** Everything that was written is cleared, one call a record, failures only logged. */
    method ClearAll(written: seq<string>, w: Weather, ghost before: map<nat, Txt>, ghost mine: set<nat>)
      requires provider.Valid() && Grown(before, provider.zone, mine)
      requires provider.recordIds.Keys == Domains(written) && Remembered(provider.recordIds) == mine
      modifies provider
      ensures provider.Valid() && provider.recordIds == map[]
      ensures provider.zone == before <==> forall id :: id in mine ==> w.deletes(id)
    {
      hide Remembered, Deleted, Grown, Separate, Domains;
      ghost var left := mine;
      assert written[0..] == written;
      for n := 0 to |written|
        invariant provider.Valid() && Grown(before, provider.zone, left) && left <= mine
        invariant provider.recordIds.Keys <= Domains(written[n..]) && Remembered(provider.recordIds) <= left
        invariant forall id :: id in mine && id !in left ==> w.deletes(id)
        invariant (forall id :: id in mine ==> w.deletes(id)) ==> left == Remembered(provider.recordIds)
      {
        ghost var gone := Deleted(Ids(provider.recordIds, written[n]), w);
        ClearedOne(provider.recordIds, written[n], w, mine, left);
        GrownMinus(before, provider.zone, left, gone);
        DomainsDrop(written, n);
        var _ := provider.ClearChallenge(written[n], w);
        left := left - gone;
      }
      NoneLeft(written);
      assert provider.recordIds == map[];
      GrownByNone(before, provider.zone, left);
    }

    /**
     * One order. Whichever step fails, the zone afterwards is the zone before if and only if the provider
     * carried out the delete of every record the order had created; while the order waits for the CA all its
     * records are there. `later` says how the rest of the order goes.
     */
    method Issue(pending: seq<Challenge>, w: Weather, later: bool) returns (issued: bool, ghost mine: set<nat>, ghost during: map<nat, Txt>)
      requires provider.Valid() && provider.recordIds == map[]
      modifies provider
      ensures provider.Valid() && provider.recordIds == map[]
      ensures provider.zone == old(provider.zone) <==> forall id :: id in mine ==> w.deletes(id)
      ensures Grown(old(provider.zone), during, mine)
      ensures issued <==> later && AllCreated(w, old(provider.attempts), |pending|)
      ensures issued ==> Present(during, mine, pending)
    {
      ghost var before := provider.zone;
      var written, ok;
      written, ok, mine := WriteAll(pending, w);
      during := provider.zone;
      issued := ok && later;
      ClearAll(written, w, before, mine);
    }
  }

  /** Each challenge has its record among those the order created. */
  predicate Present(zone: map<nat, Txt>, mine: set<nat>, challenges: seq<Challenge>) {
    forall p :: p in challenges ==> exists id :: id in mine && id in zone && zone[id] == RecordFor(p)
  }

  /** For every authorization of the order, a record that shows its digest under its domain's own name is there. */
  lemma PresentShows(zone: map<nat, Txt>, mine: set<nat>, challenges: seq<Challenge>, k: nat, apex: string, value: string)
    requires Present(zone, mine, challenges) && Challenge(Stars(k) + apex, value) in challenges && !("*." <= apex)
    ensures exists id :: id in mine && id in zone && zone[id] == Txt("_acme-challenge." + apex, value)
  {
    RecordStandsUnder(k, apex, value);
  }

  lemma NothingWritten(zone: map<nat, Txt>)
    ensures Grown(zone, zone, {}) && Present(zone, {}, []) && Domains([]) == {} && Remembered(map[]) == {}
  {
  }

  /** One record more. */
  lemma GrownPlus(before: map<nat, Txt>, zone: map<nat, Txt>, mine: set<nat>, done: seq<Challenge>, id: nat, p: Challenge)
    requires Grown(before, zone, mine) && Present(zone, mine, done) && id !in zone
    ensures Grown(before, zone[id := RecordFor(p)], mine + {id}) && Present(zone[id := RecordFor(p)], mine + {id}, done + [p])
  {
    var zone' := zone[id := RecordFor(p)];
    forall q | q in done + [p]
      ensures exists i :: i in mine + {id} && i in zone' && zone'[i] == RecordFor(q)
    {
      if q in done {
        var i :| i in mine && i in zone && zone[i] == RecordFor(q);
        assert zone'[i] == RecordFor(q);
      } else {
        assert zone'[id] == RecordFor(q);
      }
    }
  }

  lemma RememberOne(recordIds: map<string, seq<nat>>, domain: string, id: nat)
    ensures var r := recordIds[domain := Ids(recordIds, domain) + [id]];
            Remembered(r) == Remembered(recordIds) + {id} && r.Keys == recordIds.Keys + {domain}
  {
    var r := recordIds[domain := Ids(recordIds, domain) + [id]];
    forall x | x in Remembered(recordIds) + {id}
      ensures x in Remembered(r)
    {
      if x == id {
        assert id in r[domain];
      } else {
        var d :| d in recordIds && x in recordIds[d];
        assert x in r[d];
      }
    }
  }

  lemma ForgetOne(recordIds: map<string, seq<nat>>, domain: string)
    requires Separate(recordIds)
    ensures Remembered(recordIds - {domain}) == Remembered(recordIds) - (set id | id in Ids(recordIds, domain))
  {
    var r := recordIds - {domain};
    forall x | x in Remembered(recordIds) && x !in Ids(recordIds, domain)
      ensures x in Remembered(r)
    {
      var d :| d in recordIds && x in recordIds[d];
      assert d in r && x in r[d];
    }
  }

  lemma GrownMinus(before: map<nat, Txt>, now: map<nat, Txt>, left: set<nat>, gone: set<nat>)
    requires Grown(before, now, left) && gone <= left
    ensures Grown(before, now - gone, left - gone)
  {
  }

  lemma GrownByNone(before: map<nat, Txt>, now: map<nat, Txt>, left: set<nat>)
    requires Grown(before, now, left)
    ensures now == before <==> left == {}
  {
    if id :| id in left {
      assert id in now.Keys && id !in before.Keys;
    }
  }

  /** One domain cleared: what it takes off, and what can be left behind. */
  lemma ClearedOne(remembered: map<string, seq<nat>>, domain: string, w: Weather, mine: set<nat>, left: set<nat>)
    requires Separate(remembered) && Remembered(remembered) <= left <= mine
    ensures var ids := Ids(remembered, domain); var gone := Deleted(ids, w); var r := remembered - {domain};
            && gone <= left && Remembered(r) <= left - gone && (forall id :: id in gone ==> w.deletes(id))
            && ((forall id :: id in mine ==> w.deletes(id)) && left == Remembered(remembered) ==> left - gone == Remembered(r))
  {
    var ids := Ids(remembered, domain);
    ForgetOne(remembered, domain);
    DeletedSound(ids, w);
    forall id | id in ids
      ensures id in Remembered(remembered)
    {
      assert domain in remembered;
    }
  }

  lemma DomainsOne(written: seq<string>, domain: string)
    ensures Domains(written + [domain]) == Domains(written) + {domain}
  {
    var t := written + [domain];
    forall d | d in Domains(written) + {domain}
      ensures d in Domains(t)
    {
      if d == domain {
        assert t[|written|] == domain;
      } else {
        var i :| 0 <= i < |written| && written[i] == d;
        assert t[i] == d;
      }
    }
  }

  lemma NoneLeft(written: seq<string>)
    ensures Domains(written[|written|..]) == {} && Remembered(map[]) == {}
  {
  }

  lemma DomainsDrop(written: seq<string>, n: nat)
    requires n < |written|
    ensures Domains(written[n..]) <= Domains(written[n + 1..]) + {written[n]}
  {
    forall d | d in Domains(written[n..])
      ensures d == written[n] || d in Domains(written[n + 1..])
    {
      var i :| 0 <= i < |written[n..]| && written[n..][i] == d;
      if i > 0 {
        assert written[n + 1..][i - 1] == d;
      }
    }
  }
}
