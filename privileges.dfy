/** The access evaluator of the REST management API. A request is admitted when it carries an
    admin TLS certificate, or else when role-based access is enabled, the user has a role
    listed as privileged for the API, and the requested endpoint is not disabled for the
    user. The certificate status, the user's name and mapped roles and the set of endpoint
    names the server knows are inputs. */
module Privileges {
  import opened Common

  /** What the TLS layer reports about the request's client certificate. */
  datatype CertStatus =
    | NoSslInfo
    | NoCerts
    | NotAdmin(principal: string)
    | Admin

  /** The settings the evaluator reads: the roles enabled for the API, the globally disabled
      endpoints, and the endpoints disabled per role (a role without an entry disables none). */
  datatype ApiSettings = ApiSettings(
    rolesEnabled: seq<string>,
    globallyDisabled: seq<string>,
    disabledByRole: map<string, seq<string>>)

  function ConfiguredFor(perRole: map<string, seq<string>>, role: string): seq<string>
  {
    if role in perRole then perRole[role] else []
  }

  /** The upper-cased names among `configured` that are endpoint names; the rest are dropped. */
  function Recognised(configured: seq<string>, known: set<string>): set<string>
  {
    set e | e in configured && Upper(e) in known :: Upper(e)
  }

  /** The endpoints disabled for one role: every globally disabled endpoint as written, and the
      recognised role-specific names upper-cased. */
  function RoleDisabled(global: seq<string>, configured: seq<string>, known: set<string>): set<string>
  {
    (set e | e in global) + Recognised(configured, known)
  }

  /** The table the evaluator builds: one entry per enabled role whose disabled set is non-empty. */
  function DisabledTable(roles: set<string>, global: seq<string>, perRole: map<string, seq<string>>,
                         known: set<string>): map<string, set<string>>
  {
    map role | role in roles && RoleDisabled(global, ConfiguredFor(perRole, role), known) != {}
      :: RoleDisabled(global, ConfiguredFor(perRole, role), known)
  }

  /** What the table holds: entries only for enabled roles, each containing the whole global
      list and otherwise only upper-cased known endpoints; an enabled role has no entry exactly
      when nothing is disabled for it, so with a non-empty global list every enabled role has one. */
  lemma DisabledTableFacts(roles: set<string>, global: seq<string>, perRole: map<string, seq<string>>,
                           known: set<string>)
    ensures var t := DisabledTable(roles, global, perRole, known);
            t.Keys <= roles &&
            (forall role :: role in t ==> (forall e :: e in global ==> e in t[role])) &&
            (forall role, e :: role in t && e in t[role] && e !in global ==> e in known && e == Upper(e)) &&
            (forall role :: role in roles && role !in t ==>
               global == [] && Recognised(ConfiguredFor(perRole, role), known) == {}) &&
            (global != [] ==> t.Keys == roles)
  {
    var t := DisabledTable(roles, global, perRole, known);
    forall role, e | role in t && e in t[role] && e !in global ensures e in known && e == Upper(e) {
      var c :| c in ConfiguredFor(perRole, role) && Upper(c) in known && Upper(c) == e;
      UpperIdempotent(c);
    }
    if global != [] {
      forall role | role in roles ensures role in t {
        assert global[0] in RoleDisabled(global, ConfiguredFor(perRole, role), known);
      }
    }
  }

  lemma UpperIdempotent(s: string)
    ensures Upper(Upper(s)) == Upper(s)
  {
  }

  lemma RecognisedAppend(configured: seq<string>, c: string, known: set<string>)
    ensures Recognised(configured + [c], known)
            == Recognised(configured, known) + (if Upper(c) in known then {Upper(c)} else {})
  {
    var l := Recognised(configured + [c], known);
    var r := Recognised(configured, known) + (if Upper(c) in known then {Upper(c)} else {});
    forall x | x in l ensures x in r {
      var e :| e in configured + [c] && Upper(e) in known && Upper(e) == x;
      if e != c {
        assert e in configured;
      }
    }
    forall x | x in r ensures x in l {
      if x in Recognised(configured, known) {
        var e :| e in configured && Upper(e) in known && Upper(e) == x;
        assert e in configured + [c];
      } else {
        assert c in configured + [c];
      }
    }
  }

  lemma DisabledTableAdd(done: set<string>, role: string, global: seq<string>,
                         perRole: map<string, seq<string>>, known: set<string>)
    ensures var d := RoleDisabled(global, ConfiguredFor(perRole, role), known);
            DisabledTable(done + {role}, global, perRole, known)
            == if d == {} then DisabledTable(done, global, perRole, known)
               else DisabledTable(done, global, perRole, known)[role := d]
  {
  }

  /** The inner loop of the constructor: the global list, then each recognised role-specific
      name upper-cased. */
  method DisabledEndpointsForRole(global: seq<string>, configured: seq<string>, known: set<string>)
    returns (forRole: set<string>)
    ensures forRole == RoleDisabled(global, configured, known)
  {
    forRole := set e | e in global;
    for j := 0 to |configured|
      invariant forRole == (set e | e in global) + Recognised(configured[..j], known)
    {
      var upper := Upper(configured[j]);
      RecognisedAppend(configured[..j], configured[j], known);
      assert configured[..j + 1] == configured[..j] + [configured[j]];
      if upper in known {
        forRole := forRole + {upper};
      }
    }
    assert configured[..|configured|] == configured;
  }

  /** The constructor's outer loop: every enabled role gets its disabled set, and a role
      whose set is empty gets no entry. */
  method DisabledEndpointsTable(allowedRoles: set<string>, global: seq<string>,
                                perRole: map<string, seq<string>>, known: set<string>)
    returns (table: map<string, set<string>>)
    ensures table == DisabledTable(allowedRoles, global, perRole, known)
  {
    table := map[];
    var todo := allowedRoles;
    while todo != {}
      invariant todo <= allowedRoles
      invariant table == DisabledTable(allowedRoles - todo, global, perRole, known)
      decreases |todo|
    {
      var role :| role in todo;
      var forRole := DisabledEndpointsForRole(global, ConfiguredFor(perRole, role), known);
      DisabledTableAdd(allowedRoles - todo, role, global, perRole, known);
      assert (allowedRoles - todo) + {role} == allowedRoles - (todo - {role});
      if forRole != {} {
        table := table[role := forRole];
      }
      todo := todo - {role};
    }
  }

  // ---------------------------------------------------------------------------------------
  // The disabled endpoints of a user

  /** The roles of a sequence, as a set. */
  function Elems(xs: seq<string>): set<string>
  {
    set x | x in xs
  }

  lemma ElemsAppend(xs: seq<string>, x: string)
    ensures Elems(xs + [x]) == Elems(xs) + {x}
  {
  }

  /** Every endpoint disabled by some role of the user that has a table entry. */
  function AllDisabled(table: map<string, set<string>>, roles: set<string>): set<string>
  {
    set role, e | role in roles && role in table && e in table[role] :: e
  }

  /** The user's disabled endpoints as the source computes them: the endpoints every user role
      with a table entry disables, and none when no user role has an entry. */
  function DisabledForUserAsWritten(table: map<string, set<string>>, roles: set<string>): set<string>
  {
    set e | e in AllDisabled(table, roles) && forall role :: role in roles && role in table ==> e in table[role]
  }

  /** The union-then-retain loops over the user's roles (in their iteration order). */
  method GetDisabledEndpointsForCurrentUser(table: map<string, set<string>>, userRoles: seq<string>)
    returns (disabled: set<string>)
    ensures disabled == DisabledForUserAsWritten(table, Elems(userRoles))
  {
    var roles := Elems(userRoles);
    disabled := {};
    for i := 0 to |userRoles|
      invariant disabled == AllDisabled(table, Elems(userRoles[..i]))
    {
      var role := userRoles[i];
      assert userRoles[..i + 1] == userRoles[..i] + [role];
      ElemsAppend(userRoles[..i], role);
      if role in table {
        disabled := disabled + table[role];
      }
    }
    assert userRoles[..|userRoles|] == userRoles;
    ghost var all := disabled;
    for i := 0 to |userRoles|
      invariant disabled == set e | e in all && forall k :: 0 <= k < i && userRoles[k] in table ==> e in table[userRoles[k]]
    {
      var role := userRoles[i];
      if role in table {
        disabled := disabled * table[role];
      }
    }
    assert forall role :: role in roles ==> exists k :: 0 <= k < |userRoles| && userRoles[k] == role;
  }

  /** The corrected disabled set: an endpoint is disabled for the user only when every role of
      the user that is privileged for the API disables it; a privileged role without a table
      entry disables nothing. */
  function DisabledForUser(table: map<string, set<string>>, allowedRoles: set<string>, roles: set<string>): set<string>
  {
    set e | e in AllDisabled(table, roles) && (exists role :: role in roles && role in allowedRoles) &&
            forall role :: role in roles && role in allowedRoles ==> role in table && e in table[role]
  }

  /** Over a table built from the enabled roles, the corrected set holds exactly the endpoints
      that every privileged role of the user disables. */
  lemma DisabledForUserMeaning(table: map<string, set<string>>, allowedRoles: set<string>, roles: set<string>, e: string)
    requires table.Keys <= allowedRoles
    ensures e in DisabledForUser(table, allowedRoles, roles) <==>
            (exists role :: role in roles && role in allowedRoles) &&
            (forall role :: role in roles && role in allowedRoles ==> role in table && e in table[role])
  {
    if (exists role :: role in roles && role in allowedRoles) &&
       (forall role :: role in roles && role in allowedRoles ==> role in table && e in table[role]) {
      var role :| role in roles && role in allowedRoles;
      assert e in AllDisabled(table, roles);
    }
  }

  /** When every privileged role of the user has an entry, the source's set and the corrected
      one agree. */
  lemma DisabledForUserAgrees(table: map<string, set<string>>, allowedRoles: set<string>, roles: set<string>)
    requires table.Keys <= allowedRoles
    requires forall role :: role in roles && role in allowedRoles ==> role in table
    ensures DisabledForUserAsWritten(table, roles) == DisabledForUser(table, allowedRoles, roles)
  {
    forall e | e in DisabledForUserAsWritten(table, roles)
      ensures e in DisabledForUser(table, allowedRoles, roles)
    {
      var role, x :| role in roles && role in table && x in table[role] && x == e;
    }
  }

  /** A privileged role with nothing disabled has no entry, and the source then lets the user's
      other roles disable an endpoint this role grants. */
  lemma DisabledForUserAsWrittenIgnoresUnrestrictedRole()
    ensures var table := map["R1" := {"CACHE"}];
            DisabledForUserAsWritten(table, {"R1", "R2"}) == {"CACHE"} &&
            DisabledForUser(table, {"R1", "R2"}, {"R1", "R2"}) == {}
  {
    var table := map["R1" := {"CACHE"}];
    assert "R1" in table && "CACHE" in table["R1"];
    assert "CACHE" in AllDisabled(table, {"R1", "R2"});
    assert "R2" !in table;
  }

  /** Every enabled role's entry holds the global list, so any user with a privileged role has
      every globally disabled endpoint disabled. */
  lemma GloballyDisabledDeniedToEveryone(settings: ApiSettings, known: set<string>, roles: set<string>, e: string)
    requires e in settings.globallyDisabled
    requires exists role :: role in roles && role in settings.rolesEnabled
    ensures var allowed := Elems(settings.rolesEnabled);
            e in DisabledForUser(DisabledTable(allowed, settings.globallyDisabled, settings.disabledByRole, known), allowed, roles)
  {
    var allowed := Elems(settings.rolesEnabled);
    var t := DisabledTable(allowed, settings.globallyDisabled, settings.disabledByRole, known);
    DisabledTableFacts(allowed, settings.globallyDisabled, settings.disabledByRole, known);
    DisabledForUserMeaning(t, allowed, roles, e);
  }

  // ---------------------------------------------------------------------------------------
  // The evaluator

  class RestApiPrivilegesEvaluator {
    const allowedRoles: set<string>
    const disabledEndpointsForRoles: map<string, set<string>>
    const roleBasedAccessEnabled: bool

    constructor (settings: ApiSettings, knownEndpoints: set<string>)
      ensures allowedRoles == Elems(settings.rolesEnabled)
      ensures roleBasedAccessEnabled <==> allowedRoles != {}
      ensures disabledEndpointsForRoles
              == DisabledTable(allowedRoles, settings.globallyDisabled, settings.disabledByRole, knownEndpoints)
    {
      var roles := Elems(settings.rolesEnabled);
      var table := DisabledEndpointsTable(roles, settings.globallyDisabled, settings.disabledByRole, knownEndpoints);
      allowedRoles := roles;
      roleBasedAccessEnabled := roles != {};
      disabledEndpointsForRoles := table;
    }

    /** The user may use the API when one of the user's roles is privileged for it. */
    predicate CurrentUserHasRestApiAccess(userRoles: set<string>)
    {
      !(allowedRoles !! userRoles)
    }

    /** The certificate path: admitted (None) only with SSL info, a client certificate and an
        admin principal, the reasons checked in that order. */
    static function CheckAdminCertBasedAccessPermissions(cert: CertStatus): (reason: Option<string>)
      ensures reason.None? <==> cert.Admin?
      ensures cert.NoSslInfo? ==> reason == Some("No ssl info found in request.")
      ensures cert.NoCerts? ==> reason == Some("No client TLS certificate found in request")
      ensures cert.NotAdmin? ==> reason == Some("SG admin permissions required but " + cert.principal + " is not an admin")
    {
      match cert
      case NoSslInfo => Some("No ssl info found in request.")
      case NoCerts => Some("No client TLS certificate found in request")
      case NotAdmin(p) => Some("SG admin permissions required but " + p + " is not an admin")
      case Admin => None
    }

    /** The role path: admitted (None) when role-based access is on, the user has a privileged
        role and no disabled endpoint of the user equals the endpoint's name ignoring case.
        The caller passes the user's roles without repeats, since the source lists them from
        a set. */
    function CheckRoleBasedAccessPermissions(userName: string, userRoles: seq<string>, endpoint: string): (reason: Option<string>)
      ensures reason.None? <==>
              roleBasedAccessEnabled && CurrentUserHasRestApiAccess(Elems(userRoles)) &&
              forall e :: e in DisabledForUser(disabledEndpointsForRoles, allowedRoles, Elems(userRoles)) ==>
                          !EqualsIgnoreCase(e, endpoint)
      ensures !roleBasedAccessEnabled ==> reason == Some("Role based access not enabled.")
      ensures roleBasedAccessEnabled && !CurrentUserHasRestApiAccess(Elems(userRoles)) ==>
              reason == Some("User " + userName + " with Search Guard Roles " + ListText(userRoles)
                             + " does not have any role privileged for admin access")
    ensures roleBasedAccessEnabled && CurrentUserHasRestApiAccess(Elems(userRoles)) && reason.Some? ==>
              reason == Some("User " + userName + " with Search Guard Roles " + ListText(userRoles)
                             + " does not have any access to endpoint " + endpoint)
    {
      var roles := Elems(userRoles);
      if !roleBasedAccessEnabled then Some("Role based access not enabled.")
      else if !CurrentUserHasRestApiAccess(roles) then
        Some("User " + userName + " with Search Guard Roles " + ListText(userRoles)
             + " does not have any role privileged for admin access")
      else
        var disabled := DisabledForUser(disabledEndpointsForRoles, allowedRoles, roles);
        if exists e :: e in disabled && EqualsIgnoreCase(e, endpoint) then
          Some("User " + userName + " with Search Guard Roles " + ListText(userRoles)
               + " does not have any access to endpoint " + endpoint)
        else None
    }

    /** Both reasons, role first. */
    static function ConstructAccessErrorMessage(roleReason: string, certReason: string): (message: string)
      ensures |message| == |roleReason| + 2 + |certReason|
      ensures message[..|roleReason|] == roleReason
      ensures message[|roleReason|..] == "; " + certReason
    {
      roleReason + "; " + certReason
    }

    /** The decision for one request: None admits it, otherwise the combined reason. */
    function CheckAccessPermissions(cert: CertStatus, userName: string, userRoles: seq<string>, endpoint: string)
      : (reason: Option<string>)
      ensures reason.None? <==>
              cert.Admin? || CheckRoleBasedAccessPermissions(userName, userRoles, endpoint).None?
      ensures reason.Some? ==>
              reason.value == ConstructAccessErrorMessage(CheckRoleBasedAccessPermissions(userName, userRoles, endpoint).value,
                                                          CheckAdminCertBasedAccessPermissions(cert).value)
    {
      match CheckAdminCertBasedAccessPermissions(cert)
      case None => None
      case Some(certReason) =>
        match CheckRoleBasedAccessPermissions(userName, userRoles, endpoint)
        case None => None
        case Some(roleReason) => Some(ConstructAccessErrorMessage(roleReason, certReason))
    }
  }

  /** An admin certificate admits every request, whatever the user's roles and the endpoint. */
  lemma AdminCertificateAdmits(ev: RestApiPrivilegesEvaluator, userName: string, userRoles: seq<string>, endpoint: string)
    ensures ev.CheckAccessPermissions(Admin, userName, userRoles, endpoint) == None
  {
  }

  /** Without role-based access, any request lacking an admin certificate is refused with both
      reasons. */
  lemma NoRolesNoCertificateRefused(ev: RestApiPrivilegesEvaluator, cert: CertStatus, userName: string,
                                    userRoles: seq<string>, endpoint: string)
    requires !ev.roleBasedAccessEnabled && !cert.Admin?
    ensures ev.CheckAccessPermissions(cert, userName, userRoles, endpoint)
            == Some("Role based access not enabled." + "; " + RestApiPrivilegesEvaluator.CheckAdminCertBasedAccessPermissions(cert).value)
  {
  }
}
