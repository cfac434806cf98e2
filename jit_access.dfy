/**
 * The just-in-time access workflow (demo/jit/demo-be/internal/jitaccess):
 * read a user's role, elevate it to the requested role, wait, then put the
 * original role back.
 *
 * The role store behind the activities is a RoleDirectory whose `roles` map
 * the role-setting activity writes; a user it does not list reads as the
 * empty role. Whether each activity call fails is a parameter; a failed
 * call changes nothing. The timer is recorded in the step trace only.
 */
module JitAccess {
  import opened GoTypes

  datatype JITAccessRequest = JITAccessRequest(username: string, reason: string, newRole: string, duration: int)

  /** Which activity calls fail, and with what error text. */
  datatype ActivityFailures = ActivityFailures(read: Option<string>, elevate: Option<string>, revert: Option<string>)

  /** The workflow's error: an activity's own, or the non-retryable
      application error for a pointless elevation. */
  datatype WorkflowError =
    | ActivityError(msg: string)
    | ApplicationError(msg: string, errType: string, nonRetryable: bool)

  const InvalidRoleError := ApplicationError("new_role cannot be same as current role", "InvalidRole", true)

  /** One step the workflow took, in order. */
  datatype Step = GetUserRole(username: string) | SetUserRole(username: string, role: string) | Sleep(duration: int)

  /** The role store. */
  class RoleDirectory {
    var roles: map<string, string>

    constructor (initial: map<string, string>)
      ensures roles == initial
    {
      roles := initial;
    }

    /** The user's current role. */
    function RoleOf(username: string): string
      reads this
    {
      RoleIn(roles, username)
    }

    /** GetUserRoleActivity. */
    method GetUserRoleActivity(username: string, failure: Option<string>) returns (role: string, err: Option<string>)
      ensures err == failure
      ensures failure.None? ==> role == RoleOf(username)
    {
      if failure.Some? {
        return "", failure;
      }
      return RoleOf(username), None;
    }

    /** SetUserRoleActivity. */
    method SetUserRoleActivity(username: string, role: string, failure: Option<string>) returns (err: Option<string>)
      modifies this
      ensures err == failure
      ensures roles == if failure.None? then old(roles)[username := role] else old(roles)
    {
      if failure.None? {
        roles := roles[username := role];
      }
      err := failure;
    }
  }

  /** What one run of the workflow did: the roles afterwards, the error it
      returned and the steps it took. */
  datatype Run = Run(roles: map<string, string>, err: Option<WorkflowError>, steps: seq<Step>)

  /** A user's role in a roles map; an unlisted user has the empty role. */
  function RoleIn(roles: map<string, string>, username: string): string
  {
    if username in roles then roles[username] else ""
  }

  /** The workflow's effect on a directory holding `roles`. */
  function AccessRun(roles: map<string, string>, req: JITAccessRequest, f: ActivityFailures): (r: Run)
    // a failed read ends the run with its error and changes nothing
    ensures f.read.Some? ==> r == Run(roles, Some(ActivityError(f.read.value)), [GetUserRole(req.username)])
    // asking for the role the user already has is refused and changes nothing
    ensures f.read.None? && RoleIn(roles, req.username) == req.newRole ==>
      r == Run(roles, Some(InvalidRoleError), [GetUserRole(req.username)])
    // a failed elevation: no wait and no revert
    ensures f.read.None? && RoleIn(roles, req.username) != req.newRole && f.elevate.Some? ==>
      r == Run(roles, Some(ActivityError(f.elevate.value)),
               [GetUserRole(req.username), SetUserRole(req.username, req.newRole)])
    // a failed revert leaves the user at the new role
    ensures f.read.None? && RoleIn(roles, req.username) != req.newRole && f.elevate.None? && f.revert.Some? ==>
      && r.err == Some(ActivityError(f.revert.value))
      && r.roles == roles[req.username := req.newRole]
    // the run succeeds exactly when every call does and the role changes
    ensures r.err.None? <==> f.read.None? && f.elevate.None? && f.revert.None? && RoleIn(roles, req.username) != req.newRole
    // a successful run elevates, waits, then restores the role it read
    ensures r.err.None? ==>
      && r.steps == [GetUserRole(req.username), SetUserRole(req.username, req.newRole), Sleep(req.duration),
                     SetUserRole(req.username, RoleIn(roles, req.username))]
      && RoleIn(r.roles, req.username) == RoleIn(roles, req.username)
      && (forall u :: u in roles && u != req.username ==> u in r.roles && r.roles[u] == roles[u])
    ensures req.username in roles && r.err.None? ==> r.roles == roles
  {
    var original := RoleIn(roles, req.username);
    var read := [GetUserRole(req.username)];
    if f.read.Some? then Run(roles, Some(ActivityError(f.read.value)), read)
    else if original == req.newRole then Run(roles, Some(InvalidRoleError), read)
    else
      var elevate := read + [SetUserRole(req.username, req.newRole)];
      if f.elevate.Some? then Run(roles, Some(ActivityError(f.elevate.value)), elevate)
      else
        var elevated := roles[req.username := req.newRole];
        var waited := elevate + [Sleep(req.duration)];
        var revert := waited + [SetUserRole(req.username, original)];
        if f.revert.Some? then Run(elevated, Some(ActivityError(f.revert.value)), revert)
        else Run(elevated[req.username := original], None, revert)
  }

  /** JITAccessWorkflow, step by step against the directory. */
  method JITAccessWorkflow(dir: RoleDirectory, req: JITAccessRequest, f: ActivityFailures)
    returns (err: Option<WorkflowError>, steps: seq<Step>)
    modifies dir
    ensures Run(dir.roles, err, steps) == AccessRun(old(dir.roles), req, f)
  {
    steps := [GetUserRole(req.username)];
    var originalRole, readErr := dir.GetUserRoleActivity(req.username, f.read);
    if readErr.Some? {
      return Some(ActivityError(readErr.value)), steps;
    }
    if originalRole == req.newRole {
      return Some(InvalidRoleError), steps;
    }
    steps := steps + [SetUserRole(req.username, req.newRole)];
    var setErr := dir.SetUserRoleActivity(req.username, req.newRole, f.elevate);
    if setErr.Some? {
      return Some(ActivityError(setErr.value)), steps;
    }
    steps := steps + [Sleep(req.duration)];
    steps := steps + [SetUserRole(req.username, originalRole)];
    var revertErr := dir.SetUserRoleActivity(req.username, originalRole, f.revert);
    if revertErr.Some? {
      return Some(ActivityError(revertErr.value)), steps;
    }
    err := None;
  }

  /** The elevated role is in force only between the elevation and the revert:
      in any run that elevated, the user holds the new role exactly when the
      revert did not go through. */
  lemma ElevationIsTemporary(roles: map<string, string>, req: JITAccessRequest, f: ActivityFailures)
    requires f.read.None? && RoleIn(roles, req.username) != req.newRole && f.elevate.None?
    ensures var r := AccessRun(roles, req, f);
      RoleIn(r.roles, req.username) == req.newRole <==> f.revert.Some?
  {
  }
}
