/** The role gates of app/dependencies/roles.py, applied to the current user. */
module Roles {
  import opened Common
  import opened Session

  const AdminRole := JStr("admin")
  const CandidateRole := JStr("candidate")

  /** `require_admin`: the user unchanged when the role is "admin", else 403. */
  function RequireAdmin(user: CurrentUser): (r: Result<CurrentUser, HttpError>)
    ensures r.Ok? <==> user.role == AdminRole
    ensures r.Ok? ==> r.value == user
    ensures r.Err? ==> r.error == HttpError(403, "Admins only")
  {
    if user.role != AdminRole then Err(HttpError(403, "Admins only")) else Ok(user)
  }

  /** `require_candidate`: the user unchanged when the role is "candidate", else 403. */
  function RequireCandidate(user: CurrentUser): (r: Result<CurrentUser, HttpError>)
    ensures r.Ok? <==> user.role == CandidateRole
    ensures r.Ok? ==> r.value == user
    ensures r.Err? ==> r.error == HttpError(403, "Candidates only")
  {
    if user.role != CandidateRole then Err(HttpError(403, "Candidates only")) else Ok(user)
  }

  /** The two gates are exclusive, and an interviewer passes neither. */
  lemma GatesExclusive(user: CurrentUser)
    ensures !(RequireAdmin(user).Ok? && RequireCandidate(user).Ok?)
    ensures user.role == JStr("interviewer") ==> RequireAdmin(user).Err? && RequireCandidate(user).Err?
  {
  }
}
