/** Roles assigned in advance: a node that joins is given the first role stored for its
    external id, in the same locked section, whoever owns the network already. */
module PreAssigned {
  import opened Options
  import opened Registry
  import opened RegistryInvariants
  import opened RegistrySteps
  import opened RegistryRuns
  import opened RegistryLimits
  import RegistryInvites

  datatype Assignment = Assignment(externalId: string, role: string)

  function RoleNamed(role: string): Role {
    if role == "owner" then Owner else if role == "admin" then Admin else Member
  }

  /** The role of the first assignment to that id, which may be compared without case. */
  function FirstMatch(roles: seq<Assignment>, externalId: string, same: (string, string) -> bool): Option<Role> {
    if externalId == "" || roles == [] then None
    else if same(roles[0].externalId, externalId) then Some(RoleNamed(roles[0].role))
    else FirstMatch(roles[1..], externalId, same)
  }

  function CommitRole(s: State, k: NetId, id: NodeId, role: Role): State {
    if k !in s.networks then s
    else WithNetwork(s, k, s.networks[k].(roles := s.networks[k].roles[id := role]))
  }

  function JoinAssigned(s: State, id: NodeId, k: NetId, token: string, authorized: bool, role: Option<Role>): State {
    if authorized && JoinAllowed(s, id, k, token) && role.Some? then CommitRole(Link(s, id, k), k, id, role.value)
    else Join(s, id, k, token, authorized)
  }

  ghost predicate OwnedByOther(s: State, k: NetId, id: NodeId) {
    k in s.networks && exists o :: o in s.networks[k].roles && s.networks[k].roles[o] == Owner && o != id
  }

  /** The join makes an owner of a node in a network that has one. */
  ghost predicate SecondOwner(s: State, id: NodeId, k: NetId, token: string, authorized: bool, role: Option<Role>) {
    authorized && JoinAllowed(s, id, k, token) && role == Some(Owner) && OwnedByOther(s, k, id)
  }

  lemma CommitKeeps(s: State, k: NetId, id: NodeId, role: Role)
    requires Inv(s) && Lists(s, k, id) && k != 0
    ensures var t := CommitRole(s, k, id, role);
            Inv(t) <==> !(role == Owner && OwnedByOther(s, k, id))
  {
    var t := CommitRole(s, k, id, role);
    assert OneOwnerAtMost(s.networks[k].roles);
    if role == Owner && OwnedByOther(s, k, id) {
      var o :| o in s.networks[k].roles && s.networks[k].roles[o] == Owner && o != id;
      assert t.networks[k].roles[o] == Owner == t.networks[k].roles[id];
      assert !OneOwnerAtMost(t.networks[k].roles);
    } else {
      assert OneOwnerAtMost(t.networks[k].roles);
      RolesChangedKeeps(s, t, k);
    }
  }

  lemma LinkOwners(s: State, id: NodeId, k: NetId)
    requires id in s.nodes && k in s.networks
    ensures OwnedByOther(Link(s, id, k), k, id) <==> OwnedByOther(s, k, id)
    ensures Lists(Link(s, id, k), k, id)
  {
    var a, b := s.networks[k].roles, Link(s, id, k).networks[k].roles;
    assert b == a[id := Member];
    assert id in s.networks[k].members + [id];
    forall o | o != id ensures o in b && b[o] == Owner <==> o in a && a[o] == Owner {}
    if OwnedByOther(s, k, id) {
      var o :| o in a && a[o] == Owner && o != id;
      assert o in b && b[o] == Owner;
    }
  }

  /** A join with a role assigned in advance keeps the invariant if and only if it does not
      make an owner of the node while another node owns the network. */
  lemma JoinAssignedExactly(s: State, id: NodeId, k: NetId, token: string, authorized: bool, role: Option<Role>)
    requires Inv(s)
    ensures Inv(JoinAssigned(s, id, k, token, authorized, role)) <==> !SecondOwner(s, id, k, token, authorized, role)
  {
    JoinKeeps(s, id, k, token, authorized);
    if authorized && JoinAllowed(s, id, k, token) && role.Some? {
      LinkOwners(s, id, k);
      CommitKeeps(Link(s, id, k), k, id, role.value);
    }
  }

  /** The first assignment to the id, if the id is not empty, and its role: owner, admin, or
      member for anything else. */
  ghost predicate IsFirstMatch(roles: seq<Assignment>, externalId: string, same: (string, string) -> bool, i: nat) {
    && i < |roles| && externalId != "" && same(roles[i].externalId, externalId)
    && forall j :: 0 <= j < i ==> !same(roles[j].externalId, externalId)
  }

  predicate RoleWritten(name: string, role: Role) {
    (role == Owner <==> name == "owner") && (role == Admin <==> name == "admin")
  }

  lemma {:induction false} FirstMatchExactly(roles: seq<Assignment>, externalId: string, same: (string, string) -> bool)
    ensures FirstMatch(roles, externalId, same).None? <==>
            externalId == "" || forall i :: 0 <= i < |roles| ==> !same(roles[i].externalId, externalId)
    ensures FirstMatch(roles, externalId, same).Some? ==>
              exists i: nat :: IsFirstMatch(roles, externalId, same, i)
                          && RoleWritten(roles[i].role, FirstMatch(roles, externalId, same).value)
    decreases |roles|
  {
    if externalId != "" && roles != [] {
      var rest := roles[1..];
      assert forall i :: 0 < i < |roles| ==> roles[i] == rest[i - 1];
      if same(roles[0].externalId, externalId) {
        assert IsFirstMatch(roles, externalId, same, 0);
      } else {
        FirstMatchExactly(rest, externalId, same);
        if FirstMatch(rest, externalId, same).Some? {
          var i: nat :| IsFirstMatch(rest, externalId, same, i)
                        && RoleWritten(rest[i].role, FirstMatch(rest, externalId, same).value);
          assert roles[i + 1] == rest[i] && IsFirstMatch(roles, externalId, same, i + 1);
        }
      }
    }
  }

  /** The join itself is as without the assignment; only the joining node's role differs. */
  lemma AssignedRole(s: State, id: NodeId, k: NetId, token: string, authorized: bool, role: Role)
    requires Inv(s)
    ensures var t, u := JoinAssigned(s, id, k, token, authorized, Some(role)), Join(s, id, k, token, authorized);
            && (u == s ==> t == s)
            && (u != s ==> k in t.networks && t.networks[k].members == s.networks[k].members + [id]
                           && t.networks[k].roles == s.networks[k].roles[id := role]
                           && t == u.(networks := u.networks[k := t.networks[k]]))
  {
    if authorized && JoinAllowed(s, id, k, token) {
      var t, u := JoinAssigned(s, id, k, token, authorized, Some(role)), Join(s, id, k, token, authorized);
      assert |u.networks[k].members| == |s.networks[k].members| + 1;
      assert t.networks[k].roles == s.networks[k].roles[id := Member][id := role];
    }
  }

  // --- a network with two owners ---------------------------------------------------------------

  const Shared := RegistryInvites.Pair.(
    nodes := RegistryInvites.Pair.nodes[1 := RegistryInvites.Pair.nodes[1].(networks := [0, 1])],
    networks := RegistryInvites.Pair.networks[1 := Network("ops", "open", "", false, 0, [1], map[1 := Owner])],
    nextNet := 2)

  lemma SharedStep()
    ensures Apply(RegistryInvites.Pair, Second) == Shared
  {
    var a := Apply(RegistryInvites.Pair, Second);
    assert [0] + [1] == [0, 1];
    assert a.nodes == Shared.nodes && a.networks == Shared.networks;
  }

  lemma SharedIsReachable()
    ensures Legal(Initial, [First, RegistryInvites.Guest, Second])
    ensures Run(Initial, [First, RegistryInvites.Guest, Second]) == Shared
  {
    FirstStep();
    RegistryInvites.GuestStep();
    SharedStep();
    RunThree(Initial, First, Registered, RegistryInvites.Guest, RegistryInvites.Pair, Second);
  }

  lemma SharedInv()
    ensures Inv(Shared)
  {
    SharedIsReachable();
    InitialInv();
    RunKeepsInv(Initial, [First, RegistryInvites.Guest, Second]);
  }

  lemma SharedJoin()
    ensures JoinAllowed(Shared, 2, 1, "")
    ensures JoinAssigned(Shared, 2, 1, "", true, Some(Owner)).networks[1].roles == map[1 := Owner, 2 := Owner]
  {
  }

  /** From a fresh server: two registrations, one network, and the second node joins it with
      the owner's role assigned in advance. The network then has two owners. */
  lemma TwoOwners()
    ensures Inv(Shared)
    ensures var t := JoinAssigned(Shared, 2, 1, "", true, Some(Owner));
            !Inv(t) && 1 in t.networks && t.networks[1].roles == map[1 := Owner, 2 := Owner]
  {
    SharedInv();
    SharedJoin();
    assert Shared.networks[1].roles[1] == Owner;
    assert SecondOwner(Shared, 2, 1, "", true, Some(Owner));
    JoinAssignedExactly(Shared, 2, 1, "", true, Some(Owner));
  }
}
