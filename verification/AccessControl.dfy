/** The permission gate with its audit log (app/identity/permissions.py) and the audit part of the
    compliance report (app/identity/routes.py). Tables are sequences of rows in insertion order. */
module AccessControl {
  import opened Wrappers
  import opened Counting
  import opened Grouping

  datatype UserRole = UserRole(userId: string, roleId: string, active: bool)
  datatype RolePermission = RolePermission(roleId: string, permissionId: string)
  datatype Permission = Permission(id: string, resource: string, action: string)

  /** A row of `permission_audit_log`, without the request's address and agent. */
  datatype Audit = Audit(userId: string, resource: string, action: string, granted: bool, roles: seq<string>)

  /** What the queries of one request find; each table is read once, and may be written in between. */
  datatype Tables = Tables(
    users: set<string>,
    userRoles: seq<UserRole>,
    rolePermissions: seq<RolePermission>,
    permissions: seq<Permission>)

  datatype Required = Required(resource: string, action: string)

  /** What routing looks at: a full match needs the method and the path. */
  datatype Target = Target(verb: string, path: string)

  /** A protected route: the targets it matches in full, and what it requires. */
  datatype Route = Route(targets: set<Target>, required: Required)

  /** `bearer` is the bearer credential, if the request has one; JWTs (RFC 7519) are decoded by `decode`. */
  datatype Request = Request(target: Target, bearer: Option<string>)

  datatype Answer = Forwarded | Refused(status: int) | Crashed

  // ---------------------------------------------------------------------------------------------
  // The decision

  /** The first route, in registration order, that matches. */
  function RequiredFor(routes: seq<Route>, target: Target): Option<Required> {
    if routes == [] then None
    else if target in routes[0].targets then Some(routes[0].required)
    else RequiredFor(routes[1..], target)
  }

  /** Route i is the first that matches in full. */
  ghost predicate FirstMatch(routes: seq<Route>, target: Target, i: nat) {
    i < |routes| && target in routes[i].targets && forall j :: 0 <= j < i ==> target !in routes[j].targets
  }

  /** The first matching route requires this. */
  ghost predicate Protected(routes: seq<Route>, target: Target, need: Required) {
    exists i: nat :: FirstMatch(routes, target, i) && routes[i].required == need
  }

  ghost predicate Unprotected(routes: seq<Route>, target: Target) {
    forall i :: 0 <= i < |routes| ==> target !in routes[i].targets
  }

  lemma {:induction false} RequiredForFirst(routes: seq<Route>, target: Target) returns (i: nat)
    ensures RequiredFor(routes, target).None? <==> Unprotected(routes, target)
    ensures RequiredFor(routes, target).Some? ==>
      FirstMatch(routes, target, i) && RequiredFor(routes, target) == Some(routes[i].required)
  {
    i := 0;
    if routes != [] && target !in routes[0].targets {
      var k := RequiredForFirst(routes[1..], target);
      i := k + 1;
      assert forall j :: 1 <= j < |routes| ==> routes[j] == routes[1..][j - 1];
    }
  }

  lemma RequiredForIff(routes: seq<Route>, target: Target)
    ensures RequiredFor(routes, target).None? <==> Unprotected(routes, target)
    ensures forall need :: RequiredFor(routes, target) == Some(need) <==> Protected(routes, target, need)
  {
    var i := RequiredForFirst(routes, target);
    forall need | Protected(routes, target, need)
      ensures RequiredFor(routes, target) == Some(need)
    {
      var k: nat :| FirstMatch(routes, target, k) && routes[k].required == need;
      assert RequiredFor(routes, target).Some?;
      assert !(k < i) && !(i < k);
    }
  }

  function ActiveRoles(userRoles: seq<UserRole>, user: string): seq<string> {
    if userRoles == [] then []
    else (if userRoles[0].userId == user && userRoles[0].active then [userRoles[0].roleId] else [])
         + ActiveRoles(userRoles[1..], user)
  }

  function JoinPermissions(rp: RolePermission, permissions: seq<Permission>, need: Required): nat {
    if permissions == [] then 0
    else (if rp.permissionId == permissions[0].id && permissions[0].resource == need.resource && permissions[0].action == need.action
          then 1 else 0) + JoinPermissions(rp, permissions[1..], need)
  }

  /** The number of rows of role_permissions JOIN permissions that pass the filter. */
  function JoinCount(roles: seq<string>, rps: seq<RolePermission>, permissions: seq<Permission>, need: Required): nat {
    if rps == [] then 0
    else (if rps[0].roleId in roles then JoinPermissions(rps[0], permissions, need) else 0)
         + JoinCount(roles, rps[1..], permissions, need)
  }

  /** An active role of the user is linked to a matching permission. */
  ghost predicate HasPermission(t: Tables, user: string, need: Required) {
    exists i, j, k ::
      && 0 <= i < |t.userRoles| && 0 <= j < |t.rolePermissions| && 0 <= k < |t.permissions|
      && Links(t.userRoles[i], t.rolePermissions[j], t.permissions[k], user, need)
  }

  predicate Links(ur: UserRole, rp: RolePermission, p: Permission, user: string, need: Required) {
    && ur.userId == user && ur.active && ur.roleId == rp.roleId
    && rp.permissionId == p.id && p.resource == need.resource && p.action == need.action
  }

  lemma {:induction false} ActiveRolesHold(userRoles: seq<UserRole>, user: string, role: string)
    ensures role in ActiveRoles(userRoles, user) <==>
      exists i :: 0 <= i < |userRoles| && userRoles[i].userId == user && userRoles[i].active && userRoles[i].roleId == role
  {
    if userRoles != [] {
      ActiveRolesHold(userRoles[1..], user, role);
      if role in ActiveRoles(userRoles[1..], user) {
        var i :| 0 <= i < |userRoles[1..]| && userRoles[1..][i].userId == user && userRoles[1..][i].active && userRoles[1..][i].roleId == role;
        assert userRoles[i + 1] == userRoles[1..][i];
      }
      if exists i :: 0 < i < |userRoles| && userRoles[i].userId == user && userRoles[i].active && userRoles[i].roleId == role {
        var i :| 0 < i < |userRoles| && userRoles[i].userId == user && userRoles[i].active && userRoles[i].roleId == role;
        assert userRoles[1..][i - 1] == userRoles[i];
      }
    }
  }

  lemma {:induction false} JoinPermissionsPositive(rp: RolePermission, permissions: seq<Permission>, need: Required)
    ensures JoinPermissions(rp, permissions, need) > 0 <==>
      exists k :: 0 <= k < |permissions| && permissions[k].id == rp.permissionId && permissions[k].resource == need.resource && permissions[k].action == need.action
  {
    if permissions != [] {
      JoinPermissionsPositive(rp, permissions[1..], need);
      if JoinPermissions(rp, permissions[1..], need) > 0 {
        var k :| 0 <= k < |permissions[1..]| && permissions[1..][k].id == rp.permissionId && permissions[1..][k].resource == need.resource && permissions[1..][k].action == need.action;
        assert permissions[k + 1] == permissions[1..][k];
      }
      if exists k :: 0 < k < |permissions| && permissions[k].id == rp.permissionId && permissions[k].resource == need.resource && permissions[k].action == need.action {
        var k :| 0 < k < |permissions| && permissions[k].id == rp.permissionId && permissions[k].resource == need.resource && permissions[k].action == need.action;
        assert permissions[1..][k - 1] == permissions[k];
      }
    }
  }

  lemma {:induction false} JoinCountPositive(roles: seq<string>, rps: seq<RolePermission>, permissions: seq<Permission>, need: Required)
    ensures JoinCount(roles, rps, permissions, need) > 0 <==>
      exists j :: 0 <= j < |rps| && rps[j].roleId in roles && JoinPermissions(rps[j], permissions, need) > 0
  {
    if rps != [] {
      JoinCountPositive(roles, rps[1..], permissions, need);
      if JoinCount(roles, rps[1..], permissions, need) > 0 {
        var j :| 0 <= j < |rps[1..]| && rps[1..][j].roleId in roles && JoinPermissions(rps[1..][j], permissions, need) > 0;
        assert rps[j + 1] == rps[1..][j];
      }
      if exists j :: 0 < j < |rps| && rps[j].roleId in roles && JoinPermissions(rps[j], permissions, need) > 0 {
        var j :| 0 < j < |rps| && rps[j].roleId in roles && JoinPermissions(rps[j], permissions, need) > 0;
        assert rps[1..][j - 1] == rps[j];
      }
    }
  }

  function Allowed(t: Tables, user: string, need: Required): bool {
    var roles := ActiveRoles(t.userRoles, user);
    roles != [] && JoinCount(roles, t.rolePermissions, t.permissions, need) > 0
  }

  /** The counted join decides as the links exist, however many duplicate rows there are. */
  lemma AllowedIffPermitted(t: Tables, user: string, need: Required)
    ensures Allowed(t, user, need) <==> HasPermission(t, user, need)
  {
    var roles := ActiveRoles(t.userRoles, user);
    JoinCountPositive(roles, t.rolePermissions, t.permissions, need);
    if Allowed(t, user, need) {
      var j :| 0 <= j < |t.rolePermissions| && t.rolePermissions[j].roleId in roles
               && JoinPermissions(t.rolePermissions[j], t.permissions, need) > 0;
      JoinPermissionsPositive(t.rolePermissions[j], t.permissions, need);
      ActiveRolesHold(t.userRoles, user, t.rolePermissions[j].roleId);
    }
    if HasPermission(t, user, need) {
      var i, j, k :| 0 <= i < |t.userRoles| && 0 <= j < |t.rolePermissions| && 0 <= k < |t.permissions|
        && Links(t.userRoles[i], t.rolePermissions[j], t.permissions[k], user, need);
      ActiveRolesHold(t.userRoles, user, t.rolePermissions[j].roleId);
      JoinPermissionsPositive(t.rolePermissions[j], t.permissions, need);
    }
  }

  // ---------------------------------------------------------------------------------------------
  // One request through the middleware

  function Dispatch(routes: seq<Route>, decode: string -> Option<string>, t: Tables, log: seq<Audit>, r: Request): (Answer, seq<Audit>) {
    var need := RequiredFor(routes, r.target);
    if need.None? then (Forwarded, log)
    else if r.bearer.None? then (Crashed, log)
    else
      var user := decode(r.bearer.value);
      if user.None? || user.value == "" then (Refused(401), log)
      else if user.value !in t.users then (Refused(401), log)
      else
        var allowed := Allowed(t, user.value, need.value);
        (if allowed then Forwarded else Refused(403),
         log + [Audit(user.value, need.value.resource, need.value.action, allowed, ActiveRoles(t.userRoles, user.value))])
  }

  /** The user a bearer token names, if it is a known one. */
  function Named(t: Tables, decode: string -> Option<string>, r: Request): Option<string> {
    if r.bearer.Some? && decode(r.bearer.value).Some? && decode(r.bearer.value).value != "" && decode(r.bearer.value).value in t.users
    then decode(r.bearer.value) else None
  }

  class PermissionMiddleware {
    const routes: seq<Route>
    var log: seq<Audit>

    constructor (routes: seq<Route>)
      ensures this.routes == routes && log == []
    {
      this.routes := routes;
      log := [];
    }

    method Match(target: Target) returns (need: Option<Required>)
      ensures need == RequiredFor(routes, target)
      ensures need.None? <==> Unprotected(routes, target)
      ensures need.Some? ==> Protected(routes, target, need.value)
    {
      RequiredForIff(routes, target);
      need := None;
      var i := 0;
      while i < |routes|
        invariant 0 <= i <= |routes|
        invariant need == None
        invariant RequiredFor(routes, target) == RequiredFor(routes[i..], target)
      {
        if target in routes[i].targets {
          return Some(routes[i].required);
        }
        assert routes[i..][1..] == routes[i + 1..];
        i := i + 1;
      }
    }

    method Forward(t: Tables, decode: string -> Option<string>, r: Request) returns (answer: Answer)
      modifies this`log
      ensures (answer, log) == Dispatch(routes, decode, t, old(log), r)
      ensures Unprotected(routes, r.target) ==> answer == Forwarded && log == old(log)
      ensures !Unprotected(routes, r.target) && r.bearer.None? ==> answer == Crashed && log == old(log)
      ensures !Unprotected(routes, r.target) && r.bearer.Some? && Named(t, decode, r).None? ==> answer == Refused(401) && log == old(log)
      ensures forall need :: Protected(routes, r.target, need) && Named(t, decode, r).Some? ==>
        var user := Named(t, decode, r).value;
        answer == (if HasPermission(t, user, need) then Forwarded else Refused(403)) && |log| == |old(log)| + 1
    {
      RequiredForIff(routes, r.target);
      forall need | Protected(routes, r.target, need) && Named(t, decode, r).Some?
        ensures Allowed(t, Named(t, decode, r).value, need) <==> HasPermission(t, Named(t, decode, r).value, need)
      {
        AllowedIffPermitted(t, Named(t, decode, r).value, need);
      }
      var need := Match(r.target);
      if need.None? { return Forwarded; }
      if r.bearer.None? { return Crashed; }
      var user := decode(r.bearer.value);
      if user.None? || user.value == "" || user.value !in t.users { return Refused(401); }
      var roles := ActiveRoles(t.userRoles, user.value);
      var allowed := false;
      if roles != [] {
        allowed := JoinCount(roles, t.rolePermissions, t.permissions, need.value) > 0;
      }
      log := log + [Audit(user.value, need.value.resource, need.value.action, allowed, roles)];
      answer := if allowed then Forwarded else Refused(403);
    }
  }

  // ---------------------------------------------------------------------------------------------
  // Runs: the tables may change in any way between requests, and a token may expire

  /** A request with what its queries find and what tokens decode to at its time. */
  datatype Timed = Timed(tables: Tables, decode: string -> Option<string>, request: Request)

  function After(routes: seq<Route>, es: seq<Timed>): seq<Audit> {
    if es == [] then []
    else Dispatch(routes, es[|es| - 1].decode, es[|es| - 1].tables, After(routes, es[..|es| - 1]), es[|es| - 1].request).1
  }

  function LastAnswer(routes: seq<Route>, es: seq<Timed>): Answer
    requires es != []
  {
    Dispatch(routes, es[|es| - 1].decode, es[|es| - 1].tables, After(routes, es[..|es| - 1]), es[|es| - 1].request).0
  }

  /** How many requests for this pair were answered thus. */
  ghost function Answered(routes: seq<Route>, es: seq<Timed>, need: Required, a: Answer): nat {
    if es == [] then 0
    else
      Answered(routes, es[..|es| - 1], need, a) +
      (if Protected(routes, es[|es| - 1].request.target, need) && LastAnswer(routes, es) == a then 1 else 0)
  }

  datatype Group = Group(resource: string, action: string, granted: bool)

  function GroupOf(a: Audit): Group { Group(a.resource, a.action, a.granted) }

  lemma GroupGrows(log: seq<Audit>, a: Audit, g: Group)
    ensures GroupCount(GroupOf, log + [a], g) == GroupCount(GroupOf, log, g) + (if GroupOf(a) == g then 1 else 0)
  {
    SumAppend(InGroup(GroupOf, g), log, a);
  }

  /** In every run the group (resource, action, granted) counts exactly the requests for that pair that
      were forwarded, and the group refused exactly those turned away with 403. */
  lemma {:induction false} LogCountsDecisions(routes: seq<Route>, es: seq<Timed>, need: Required)
    ensures GroupCount(GroupOf, After(routes, es), Group(need.resource, need.action, true)) == Answered(routes, es, need, Forwarded)
    ensures GroupCount(GroupOf, After(routes, es), Group(need.resource, need.action, false)) == Answered(routes, es, need, Refused(403))
  {
    if es != [] {
      var front, e := es[..|es| - 1], es[|es| - 1];
      LogCountsDecisions(routes, front, need);
      RequiredForIff(routes, e.request.target);
      var before, after := After(routes, front), After(routes, es);
      if after != before {
        var a := after[|before|];
        assert after == before + [a];
        GroupGrows(before, a, Group(need.resource, need.action, true));
        GroupGrows(before, a, Group(need.resource, need.action, false));
      }
    }
  }

  /** Forwarded means permitted: a protected request goes through exactly when its bearer token names a
      known user with the permission. One without a bearer token crashes, one whose token names nobody known
      gets 401, and one of a user without the permission 403. The decision on a known user is logged, with
      the roles it was made on, and nothing else is. */
  lemma ForwardedIffPermitted(routes: seq<Route>, decode: string -> Option<string>, t: Tables, log: seq<Audit>, r: Request, need: Required)
    requires Protected(routes, r.target, need)
    ensures var user := Named(t, decode, r);
      var (answer, log') := Dispatch(routes, decode, t, log, r);
      && (answer.Forwarded? <==> user.Some? && HasPermission(t, user.value, need))
      && (answer == Refused(403) <==> user.Some? && !HasPermission(t, user.value, need))
      && (answer == Refused(401) <==> r.bearer.Some? && user.None?)
      && (answer.Crashed? <==> r.bearer.None?)
      && log' == log + if user.None? then []
                       else [Audit(user.value, need.resource, need.action, HasPermission(t, user.value, need), ActiveRoles(t.userRoles, user.value))]
  {
    RequiredForIff(routes, r.target);
    if Named(t, decode, r).Some? {
      AllowedIffPermitted(t, Named(t, decode, r).value, need);
    }
  }

  /** What no protected route matches is forwarded and not logged. */
  lemma UnprotectedIsForwarded(routes: seq<Route>, decode: string -> Option<string>, t: Tables, log: seq<Audit>, r: Request)
    requires Unprotected(routes, r.target)
    ensures Dispatch(routes, decode, t, log, r) == (Forwarded, log)
  {
    RequiredForIff(routes, r.target);
  }

  // ---------------------------------------------------------------------------------------------
  // The report

  /** The audit rows of the report: distinct groups whose counts add up to the length of the log. */
  method AuditReport(log: seq<Audit>) returns (rows: seq<Row<Group>>)
    ensures Groups(GroupOf, rows, log)
    ensures Sum(RowCount(), rows) == |log|
  {
    rows := CountByGroup(GroupOf, log);
  }

  /** Read over a run, the report's granted row of a pair is the number of its forwarded requests. */
  lemma ReportCountsForwarded(routes: seq<Route>, es: seq<Timed>, rows: seq<Row<Group>>, need: Required)
    requires Groups(GroupOf, rows, After(routes, es))
    ensures (exists i :: 0 <= i < |rows| && rows[i] == Row(Group(need.resource, need.action, true), Answered(routes, es, need, Forwarded)))
            <==> Answered(routes, es, need, Forwarded) > 0
    ensures forall i :: 0 <= i < |rows| && rows[i].group == Group(need.resource, need.action, true) ==>
              rows[i].count == Answered(routes, es, need, Forwarded)
  {
    LogCountsDecisions(routes, es, need);
    var g := Group(need.resource, need.action, true);
    if Answered(routes, es, need, Forwarded) > 0 {
      var k := SumPositive(InGroup(GroupOf, g), After(routes, es));
      assert HasRow(rows, GroupOf(After(routes, es)[k]));
      var i :| 0 <= i < |rows| && rows[i].group == g;
      assert rows[i] == Row(g, Answered(routes, es, need, Forwarded));
    }
  }
}
