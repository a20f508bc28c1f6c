/**
 * `InvitationManager` of project/api/models/invitation.py: the two queries
 * over the invitation table. The table is given as the sequence of its rows
 * in storage order; a queryset carries no order without `order_by`, so every
 * result is characterised by how often each row occurs in it (its multiset).
 */
module InvitationManager {
  import opened Wrappers
  import opened Invitations

  /** `queryset.filter(...)` with a per-row condition: the rows that satisfy it, each as often as stored. */
  function Where(rows: seq<Invitation>, cond: Invitation -> bool): (r: seq<Invitation>)
    ensures forall x :: multiset(r)[x] == if cond(x) then multiset(rows)[x] else 0
  {
    if rows == [] then []
    else
      assert rows == [rows[0]] + rows[1..];
      var rest := Where(rows[1..], cond);
      if cond(rows[0]) then [rows[0]] + rest else rest
  }

  /**
   * The `host_user=host_user` lookup: the row's host foreign key is that
   * account's primary key. A row whose host is NULL matches no account.
   */
  predicate HostedBy(inv: Invitation, host: UserId)
  {
    inv.host_user == Some(host)
  }

  /**
   * `filter_by_host`: without a host (`None` is falsy) the whole table,
   * otherwise the rows whose host is the given account.
   */
  function FilterByHost(rows: seq<Invitation>, host: Option<UserId>): (r: seq<Invitation>)
    ensures host.None? ==> r == rows
    ensures host.Some? ==> forall x :: multiset(r)[x] == if x.host_user == Some(host.value) then multiset(rows)[x] else 0
  {
    if host.Some? then Where(rows, inv => HostedBy(inv, host.value)) else rows
  }

  /**
   * `get_registered_invitees`: the rows that pass the `registered=True`
   * lookup, restricted to the given host when there is one. The model
   * declares no `registered` field, so what that lookup selects is the
   * parameter `registered`.
   */
  function GetRegisteredInvitees(rows: seq<Invitation>, host: Option<UserId>, registered: Invitation -> bool)
    : (r: seq<Invitation>)
    ensures forall x :: multiset(r)[x] ==
              if (host.None? || x.host_user == Some(host.value)) && registered(x) then multiset(rows)[x] else 0
  {
    if host.Some? then Where(rows, inv => HostedBy(inv, host.value) && registered(inv))
    else Where(rows, registered)
  }

  /** `filter_by_host(h)` holds exactly the stored invitations that `h` sent. */
  lemma FilterByHostExactly(rows: seq<Invitation>, host: UserId)
    ensures forall x :: x in FilterByHost(rows, Some(host)) <==> x in rows && x.host_user == Some(host)
    ensures multiset(FilterByHost(rows, Some(host))) <= multiset(rows)
  {
    var r := FilterByHost(rows, Some(host));
    forall x ensures x in r <==> x in rows && x.host_user == Some(host) {
      assert x in r <==> multiset(r)[x] > 0;
      assert x in rows <==> multiset(rows)[x] > 0;
    }
  }

  /**
   * Filtering by a host loses nothing: the table is the host's invitations
   * together with everybody else's.
   */
  lemma FilterByHostPartition(rows: seq<Invitation>, host: UserId)
    ensures multiset(rows) == multiset(FilterByHost(rows, Some(host))) + multiset(Where(rows, inv => !HostedBy(inv, host)))
  {
  }

  /**
   * `get_registered_invitees(h)` is `filter_by_host(h)` narrowed by the
   * `registered` lookup, for a given host and for none alike.
   */
  lemma RegisteredInviteesNarrowHost(rows: seq<Invitation>, host: Option<UserId>, registered: Invitation -> bool)
    ensures multiset(GetRegisteredInvitees(rows, host, registered)) == multiset(Where(FilterByHost(rows, host), registered))
    ensures multiset(GetRegisteredInvitees(rows, host, registered)) <= multiset(FilterByHost(rows, host))
  {
    var r, h := GetRegisteredInvitees(rows, host, registered), FilterByHost(rows, host);
    assert forall x :: multiset(r)[x] == multiset(Where(h, registered))[x];
  }

  /** Asking a host's invitations for that host's invitations again changes nothing. */
  lemma FilterByHostIdempotent(rows: seq<Invitation>, host: Option<UserId>)
    ensures multiset(FilterByHost(FilterByHost(rows, host), host)) == multiset(FilterByHost(rows, host))
  {
  }
}
