/** The table of tunnel profiles, and what every change of it keeps. */
module TunnelTable {
  import opened Bytes
  import opened Registry

  // ---- names of hosts ----

  predicate HostChar(c: char) {
    'a' <= c <= 'z' || '0' <= c <= '9' || c == '-'
  }

  predicate ValidSlug(s: string) {
    0 < |s| <= 63 && forall c :: c in s ==> HostChar(c)
  }

  /** One to sixty-three characters: small letters (97 to 122), digits (48 to 57) and dashes (45). */
  lemma SlugIs(s: string)
    ensures ValidSlug(s) <==>
            && 1 <= |s| <= 63
            && forall i :: 0 <= i < |s| ==> 97 <= s[i] as int <= 122 || 48 <= s[i] as int <= 57 || s[i] as int == 45
  {
    if ValidSlug(s) {
      forall i | 0 <= i < |s|
        ensures HostChar(s[i])
      {
        assert s[i] in s;
      }
    }
  }

  /** `split('.')`: never empty. */
  function Labels(h: string): (labels: seq<string>)
    ensures |labels| > 0
  {
    if h == [] then [[]]
    else
      var rest := Labels(h[1..]);
      if h[0] == '.' then [[]] + rest else [[h[0]] + rest[0]] + rest[1..]
  }

  predicate ValidLabel(l: string) {
    ValidSlug(l) && l[0] != '-' && l[|l| - 1] != '-'
  }

  predicate ValidHostname(h: string) {
    0 < |h| <= 253 && forall l :: l in Labels(h) ==> ValidLabel(l)
  }

  /** `valid_hostname`, part by part. */
  method CheckHostname(h: string) returns (ok: bool)
    ensures ok <==> ValidHostname(h)
    ensures ok <==>
            && 1 <= |h| <= 253
            && forall l :: l in Labels(h) ==>
                 && 1 <= |l| <= 63 && l[0] != '-' && l[|l| - 1] != '-'
                 && forall c :: c in l ==> 'a' <= c <= 'z' || '0' <= c <= '9' || c == '-'
  {
    if |h| == 0 || |h| > 253 {
      return false;
    }
    var labels := Labels(h);
    for i := 0 to |labels|
      invariant forall j :: 0 <= j < i ==> ValidLabel(labels[j])
    {
      var part := labels[i];
      assert part in labels;
      if |part| == 0 || |part| > 63 {
        return false;
      }
      if part[0] == '-' || part[|part| - 1] == '-' {
        return false;
      }
      if exists c :: c in part && !HostChar(c) {
        return false;
      }
    }
    return true;
  }

  /** The labels, with dots between them, are the name again. */
  function Joined(labels: seq<string>): string
    requires |labels| > 0
  {
    if |labels| == 1 then labels[0] else labels[0] + "." + Joined(labels[1..])
  }

  lemma {:induction false} LabelsHaveNoDots(h: string)
    ensures forall l :: l in Labels(h) ==> '.' !in l
  {
    if h != [] {
      LabelsHaveNoDots(h[1..]);
      var rest := Labels(h[1..]);
      assert rest[0] in rest;
      forall l | l in rest[1..]
        ensures '.' !in l
      {
        assert l in rest;
      }
    }
  }

  lemma JoinedCons(first: string, rest: seq<string>)
    requires |rest| > 0
    ensures Joined([first] + rest) == first + "." + Joined(rest)
  {
    assert ([first] + rest)[1..] == rest;
  }

  lemma JoinedLonger(c: char, labels: seq<string>)
    requires |labels| > 0
    ensures Joined([[c] + labels[0]] + labels[1..]) == [c] + Joined(labels)
  {
    hide Joined;
    var first, rest := labels[0], labels[1..];
    assert labels == [first] + rest;
    if rest == [] {
      JoinedOne(first);
      JoinedOne([c] + first);
      assert [[c] + first] + rest == [[c] + first];
      assert labels == [first];
    } else {
      JoinedCons([c] + first, rest);
      JoinedCons(first, rest);
      Regroup(c, first, Joined(rest));
    }
  }

  lemma Regroup(c: char, first: string, rest: string)
    ensures [c] + first + "." + rest == [c] + (first + "." + rest)
  {
  }

  lemma JoinedOne(first: string)
    ensures Joined([first]) == first
  {
  }

  lemma {:induction false} LabelsJoin(h: string)
    ensures Joined(Labels(h)) == h
  {
    hide Joined;
    if h == [] {
      JoinedOne([]);
    } else {
      LabelsJoin(h[1..]);
      if h[0] == '.' {
        JoinedCons([], Labels(h[1..]));
        assert [] + "." + h[1..] == h;
      } else {
        JoinedLonger(h[0], Labels(h[1..]));
        assert [h[0]] + h[1..] == h;
      }
    }
  }

  /** Splitting at the dots: the labels have none, and with dots between them they are the name again. */
  lemma LabelsSplit(h: string)
    ensures Joined(Labels(h)) == h && forall l :: l in Labels(h) ==> '.' !in l
  {
    hide Joined, Labels;
    LabelsJoin(h);
    LabelsHaveNoDots(h);
  }

  lemma {:induction false} JoinedLower(labels: seq<string>)
    requires |labels| > 0 && forall l :: l in labels ==> ValidLabel(l)
    ensures forall c :: c in Joined(labels) ==> HostChar(c) || c == '.'
  {
    assert labels[0] in labels;
    if |labels| > 1 {
      JoinedLower(labels[1..]);
    }
  }

  /** A host that is accepted is its own lower case. */
  lemma HostnameIsLower(h: string)
    requires ValidHostname(h)
    ensures Lower(h) == h
  {
    LabelsJoin(h);
    JoinedLower(Labels(h));
    forall i | 0 <= i < |h|
      ensures Lower(h)[i] == h[i]
    {
      assert h[i] in h;
    }
  }

  // ---- rows ----

  datatype Row = Row(
    name: string, token: string, domain: string, subdomain: Option<string>, host: Option<string>,
    options: string, ports: string, enabled: bool, createdAt: int, account: Option<int>, requests: nat)

  datatype NewTunnel = NewTunnel(
    name: string, token: string, domain: string, subdomain: Option<string>, host: Option<string>, options: string, ports: string)

  type Rows = map<string, Row>

  predicate SameHost(a: Option<string>, b: Option<string>) {
    a.Some? && b.Some? && Lower(a.value) == Lower(b.value)
  }

  predicate Clash(a: Row, b: Row) {
    a.name == b.name || (a.subdomain.Some? && a.subdomain == b.subdomain) || SameHost(a.host, b.host)
  }

  predicate ProperRow(r: Row) {
    && !(r.subdomain.Some? && r.host.Some?)
    && (r.subdomain.Some? ==> ValidSlug(r.subdomain.value))
    && (r.host.Some? ==> ValidHostname(r.host.value))
  }

  /** Names, subdomains and hosts are unique, and every row is proper. */
  predicate TableInv(rows: Rows) {
    && (forall id :: id in rows ==> ProperRow(rows[id]))
    && (forall a, b :: a in rows && b in rows && a != b ==> !Clash(rows[a], rows[b]))
  }

  /** A host, however it is written, belongs to one row at most. */
  lemma HostResolves(rows: Rows, a: string, b: string, host: string)
    requires TableInv(rows) && a in rows && b in rows
    requires rows[a].host.Some? && Lower(rows[a].host.value) == Lower(host)
    requires rows[b].host.Some? && Lower(rows[b].host.value) == Lower(host)
    ensures a == b && rows[a].host == Some(Lower(host))
  {
    assert ProperRow(rows[a]) && ProperRow(rows[b]);
    HostnameIsLower(rows[a].host.value);
    HostnameIsLower(rows[b].host.value);
    assert a != b ==> !Clash(rows[a], rows[b]);
  }

  // ---- validation ----

  datatype Error = Validation(message: string) | Quota(max: int) | Constraint | NoRow

  datatype Outcome<+T> = Done(value: T) | Failed(error: Error)

  /** The checks against the other rows; `except` is the row that is being changed. */
  predicate NameTaken(rows: Rows, n: NewTunnel, except: Option<string>) {
    exists id :: id in rows && Some(id) != except && rows[id].name == n.name
  }

  predicate SubdomainTaken(rows: Rows, n: NewTunnel, except: Option<string>) {
    n.subdomain.Some? && exists id :: id in rows && Some(id) != except && rows[id].subdomain == n.subdomain
  }

  predicate HostTaken(rows: Rows, n: NewTunnel, except: Option<string>) {
    n.host.Some? && exists id :: id in rows && Some(id) != except && SameHost(rows[id].host, n.host)
  }

  /** What `validate` lets through. */
  predicate Acceptable(rows: Rows, tokens: map<string, Option<int>>, domains: set<string>, n: NewTunnel, except: Option<string>) {
    && n.token in tokens && n.domain in domains && !NameTaken(rows, n, except)
    && !(n.subdomain.Some? && n.host.Some?)
    && (n.subdomain.Some? ==> ValidSlug(n.subdomain.value) && !SubdomainTaken(rows, n, except))
    && (n.host.Some? ==> ValidHostname(n.host.value) && !HostTaken(rows, n, except))
  }

  method Validate(n: NewTunnel, tokenOk: bool, domainOk: bool, dupName: bool, dupSub: bool, dupHost: bool) returns (error: Option<Error>)
    ensures error.None? <==>
            && tokenOk && domainOk && !dupName && !(n.subdomain.Some? && n.host.Some?)
            && (n.subdomain.Some? ==> ValidSlug(n.subdomain.value) && !dupSub)
            && (n.host.Some? ==> ValidHostname(n.host.value) && !dupHost)
    ensures !tokenOk ==> error == Some(Validation("token not found"))
    ensures tokenOk && !domainOk ==> error == Some(Validation("domain not found"))
    ensures tokenOk && domainOk && dupName ==> error == Some(Validation("tunnel name already exists"))
    ensures tokenOk && domainOk && !dupName && n.subdomain.Some? && n.host.Some? ==>
              error == Some(Validation("subdomain and custom hostname are mutually exclusive"))
    ensures tokenOk && domainOk && !dupName && n.subdomain.Some? && n.host.None? && error.Some? ==>
              error == Some(Validation(if ValidSlug(n.subdomain.value) then "subdomain already in use" else "invalid subdomain"))
    ensures tokenOk && domainOk && !dupName && n.subdomain.None? && n.host.Some? && error.Some? ==>
              error == Some(Validation(if ValidHostname(n.host.value) then "custom hostname already in use" else "invalid custom hostname"))
    ensures error.Some? ==> error.value.Validation?
  {
    if !tokenOk {
      return Some(Validation("token not found"));
    }
    if !domainOk {
      return Some(Validation("domain not found"));
    }
    if dupName {
      return Some(Validation("tunnel name already exists"));
    }
    if n.subdomain.Some? && n.host.Some? {
      return Some(Validation("subdomain and custom hostname are mutually exclusive"));
    }
    if n.subdomain.Some? {
      if !ValidSlug(n.subdomain.value) {
        return Some(Validation("invalid subdomain"));
      }
      if dupSub {
        return Some(Validation("subdomain already in use"));
      }
    }
    if n.host.Some? {
      var ok := CheckHostname(n.host.value);
      if !ok {
        return Some(Validation("invalid custom hostname"));
      }
      if dupHost {
        return Some(Validation("custom hostname already in use"));
      }
    }
    return None;
  }

  /** Writing one row that clashes with no other keeps the table in order. */
  lemma KeepPut(rows: Rows, id: string, r: Row)
    requires TableInv(rows) && ProperRow(r) && forall other :: other in rows && other != id ==> !Clash(rows[other], r)
    ensures TableInv(rows[id := r])
  {
  }

  /** And what has been validated clashes with no other. */
  lemma AcceptableFits(rows: Rows, tokens: map<string, Option<int>>, domains: set<string>, n: NewTunnel, id: string, r: Row)
    requires Acceptable(rows, tokens, domains, n, if id in rows then Some(id) else None)
    requires r.name == n.name && r.subdomain == n.subdomain && r.host == n.host
    ensures ProperRow(r) && forall other :: other in rows && other != id ==> !Clash(rows[other], r)
  {
    hide ValidHostname, ValidSlug, Lower;
    var except := if id in rows then Some(id) else None;
    forall other | other in rows && other != id
      ensures !Clash(rows[other], r)
    {
      assert Some(other) != except;
      assert rows[other].name == n.name ==> NameTaken(rows, n, except);
      assert n.subdomain.Some? && rows[other].subdomain == n.subdomain ==> SubdomainTaken(rows, n, except);
      assert n.host.Some? && SameHost(rows[other].host, n.host) ==> HostTaken(rows, n, except);
    }
  }

  /** The checks refuse no more than that: what is proper, about a known token and domain, and clashes with no other row passes. */
  lemma AcceptableIff(rows: Rows, tokens: map<string, Option<int>>, domains: set<string>, n: NewTunnel, id: string, r: Row)
    requires r.name == n.name && r.subdomain == n.subdomain && r.host == n.host
    ensures Acceptable(rows, tokens, domains, n, if id in rows then Some(id) else None) <==>
            && n.token in tokens && n.domain in domains && ProperRow(r)
            && forall other :: other in rows && other != id ==> !Clash(rows[other], r)
  {
    hide ValidHostname, ValidSlug, Lower;
    var except := if id in rows then Some(id) else None;
    if Acceptable(rows, tokens, domains, n, except) {
      AcceptableFits(rows, tokens, domains, n, id, r);
    }
  }

  lemma KeepFewer(rows: Rows, fewer: Rows)
    requires TableInv(rows) && forall id :: id in fewer ==> id in rows && fewer[id] == rows[id]
    ensures TableInv(fewer)
  {
  }

  // ---- the cap on enabled tunnels ----

  function EnabledOf(rows: Rows, account: int): set<string> {
    set id | id in rows && rows[id].enabled && rows[id].account == Some(account)
  }

  lemma EnabledAfterPut(rows: Rows, id: string, r: Row, account: int)
    requires r.enabled && r.account == Some(account)
    ensures |EnabledOf(rows[id := r], account)| == |EnabledOf(rows, account)| + if id in EnabledOf(rows, account) then 0 else 1
  {
    hide ProperRow;
    var before, after := EnabledOf(rows, account), EnabledOf(rows[id := r], account);
    assert id in after;
    assert forall x :: x != id ==> (x in after <==> x in before);
    if id in before {
      assert after == before;
    } else {
      assert after == before + {id};
    }
  }

  function Toggled(r: Row): Row {
    r.(enabled := !r.enabled)
  }

  /** Switching a tunnel checks no cap: it is kept exactly when the tunnel was on, or there was room. */
  lemma ToggleKeepsCapIff(rows: Rows, id: string, account: int, max: nat)
    requires id in rows && rows[id].account == Some(account) && |EnabledOf(rows, account)| <= max
    ensures |EnabledOf(rows[id := Toggled(rows[id])], account)| <= max <==>
            rows[id].enabled || |EnabledOf(rows, account)| < max
  {
    if rows[id].enabled {
      assert EnabledOf(rows[id := Toggled(rows[id])], account) == EnabledOf(rows, account) - {id};
    } else {
      EnabledAfterPut(rows, id, Toggled(rows[id]), account);
    }
  }

  // ---- the store ----

  class TunnelStore {
    var tokens: map<string, Option<int>>   // token to owning account
    var domains: set<string>
    var rows: Rows

    ghost predicate Valid()
      reads this
    {
      TableInv(rows)
    }

    constructor ()
      ensures Valid() && rows == map[] && tokens == map[] && domains == {}
    {
      tokens, domains, rows := map[], {}, map[];
    }

    /** The five lookups, and then `validate`. */
    method CheckNew(n: NewTunnel, except: Option<string>) returns (error: Option<Error>)
      ensures error.None? <==> Acceptable(rows, tokens, domains, n, except)
      ensures error.Some? ==> error.value.Validation?
    {
      hide ValidHostname, ValidSlug;
      error := Validate(n, n.token in tokens, n.domain in domains,
                        NameTaken(rows, n, except), SubdomainTaken(rows, n, except), HostTaken(rows, n, except));
    }

    /** `id` is what the random source yields; `maxEnabled` is the tenant's cap, 0 for none. */
    method CreateChecked(id: string, n: NewTunnel, maxEnabled: int, now: int) returns (r: Outcome<Row>)
      requires Valid()
      modifies this`rows
      ensures Valid()
      ensures r.Done? <==>
              && Acceptable(old(rows), tokens, domains, n, None) && id !in old(rows)
              && (maxEnabled > 0 && tokens[n.token].Some? ==>
                    |set x | x in old(rows) && old(rows)[x].enabled && old(rows)[x].account == tokens[n.token]| < maxEnabled)
      ensures r.Done? ==>
                && r.value == Row(n.name, n.token, n.domain, n.subdomain, n.host, n.options, n.ports, true, now, tokens[n.token], 0)
                && rows == old(rows)[id := r.value]
                && (maxEnabled > 0 && r.value.account.Some? ==> |EnabledOf(rows, r.value.account.value)| <= maxEnabled)
      ensures r.Failed? ==> rows == old(rows)
      ensures r.Failed? ==>
                if !Acceptable(rows, tokens, domains, n, None) then r.error.Validation?
                else if maxEnabled > 0 && tokens[n.token].Some? && |EnabledOf(rows, tokens[n.token].value)| >= maxEnabled
                then r.error == Quota(maxEnabled)
                else r.error == Constraint
    {
      hide TableInv, Acceptable;
      var error := CheckNew(n, None);
      if error.Some? {
        return Failed(error.value);
      }
      TokenKnown(rows, tokens, domains, n, None);
      var account := tokens[n.token];
      assert account.Some? ==>
          EnabledOf(rows, account.value) == set x | x in rows && rows[x].enabled && rows[x].account == account;
      if maxEnabled > 0 && account.Some? {
        if |EnabledOf(rows, account.value)| >= maxEnabled {
          return Failed(Quota(maxEnabled));
        }
      }
      if id in rows {
        return Failed(Constraint);
      }
      var row := Row(n.name, n.token, n.domain, n.subdomain, n.host, n.options, n.ports, true, now, account, 0);
      AcceptableFits(rows, tokens, domains, n, id, row);
      KeepPut(rows, id, row);
      if account.Some? {
        EnabledAfterPut(rows, id, row, account.value);
      }
      rows := rows[id := row];
      return Done(row);
    }

    /** Rewrites what the form shows; owner, switch, age and counter stay. An unknown id changes nothing. */
    method Update(id: string, n: NewTunnel) returns (r: Outcome<()>)
      requires Valid()
      modifies this`rows
      ensures Valid()
      ensures r.Done? <==> Acceptable(old(rows), tokens, domains, n, Some(id))
      ensures rows == if r.Done? && id in old(rows) then old(rows)[id := Rewritten(old(rows)[id], n)] else old(rows)
      ensures r.Done? && id in old(rows) ==>
                var was := old(rows)[id];
                rows[id] == Row(n.name, n.token, n.domain, n.subdomain, n.host, n.options, n.ports,
                                was.enabled, was.createdAt, was.account, was.requests)
      ensures r.Failed? ==> r.error.Validation?
    {
      hide TableInv, Acceptable;
      var error := CheckNew(n, Some(id));
      if error.Some? {
        return Failed(error.value);
      }
      if id in rows {
        AcceptableFits(rows, tokens, domains, n, id, Rewritten(rows[id], n));
        KeepPut(rows, id, Rewritten(rows[id], n));
        rows := rows[id := Rewritten(rows[id], n)];
      }
      return Done(());
    }

    /** Flips the switch; an unknown id is an error. */
    method Toggle(id: string) returns (r: Outcome<bool>)
      requires Valid()
      modifies this`rows
      ensures Valid()
      ensures if id in old(rows) then rows == old(rows)[id := Toggled(old(rows)[id])] && r == Done(rows[id].enabled)
              else rows == old(rows) && r == Failed(NoRow)
      ensures id in old(rows) ==> rows[id] == old(rows)[id].(enabled := !old(rows)[id].enabled)
    {
      if id !in rows {
        return Failed(NoRow);
      }
      KeepPut(rows, id, Toggled(rows[id]));
      rows := rows[id := Toggled(rows[id])];
      return Done(rows[id].enabled);
    }

    method Delete(id: string)
      requires Valid()
      modifies this`rows
      ensures Valid() && rows == old(rows) - {id}
    {
      KeepFewer(rows, rows - {id});
      rows := rows - {id};
    }

    /** A token that goes takes its tunnels along. */
    method DeleteForToken(token: string)
      requires Valid()
      modifies this`rows
      ensures Valid() && rows == map id | id in old(rows) && old(rows)[id].token != token :: old(rows)[id]
    {
      var left := map id | id in rows && rows[id].token != token :: rows[id];
      KeepFewer(rows, left);
      rows := left;
    }
  }

  lemma TokenKnown(rows: Rows, tokens: map<string, Option<int>>, domains: set<string>, n: NewTunnel, except: Option<string>)
    requires Acceptable(rows, tokens, domains, n, except)
    ensures n.token in tokens
  {
  }

  function Rewritten(r: Row, n: NewTunnel): Row {
    r.(name := n.name, token := n.token, domain := n.domain, subdomain := n.subdomain, host := n.host, options := n.options, ports := n.ports)
  }
}
