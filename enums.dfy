/** The database enums of the generated types: `app_role` and `request_status`, with
    their wire names. The pages carry roles and statuses as plain strings, so each enum
    comes with its name and a parser. */
module Enums {
  import opened Common

  datatype AppRole = User | Vendor | Admin

  /** `request_status`, in the order a request moves through it. */
  datatype Status = Pending | Accepted | InProgress | Completed

  function RoleName(r: AppRole): string {
    match r
    case User => "user"
    case Vendor => "vendor"
    case Admin => "admin"
  }

  function ParseRole(s: string): (r: Option<AppRole>)
    ensures r.Some? ==> RoleName(r.value) == s
  {
    if s == "user" then Some(User)
    else if s == "vendor" then Some(Vendor)
    else if s == "admin" then Some(Admin)
    else None
  }

  function StatusName(st: Status): string {
    match st
    case Pending => "pending"
    case Accepted => "accepted"
    case InProgress => "in_progress"
    case Completed => "completed"
  }

  /** The status a string names, if it names one. */
  function ParseStatus(s: string): (r: Option<Status>)
    ensures r.Some? ==> StatusName(r.value) == s
  {
    if s == "pending" then Some(Pending)
    else if s == "accepted" then Some(Accepted)
    else if s == "in_progress" then Some(InProgress)
    else if s == "completed" then Some(Completed)
    else None
  }

  /** Position of a status in the request life cycle. */
  function Rank(st: Status): (n: nat)
    ensures n <= 3
  {
    match st
    case Pending => 0
    case Accepted => 1
    case InProgress => 2
    case Completed => 3
  }

  /** Names and parsers are inverse: every role and status is recovered from its name,
      and distinct values have distinct names. */
  lemma NamesRoundTrip()
    ensures forall r :: ParseRole(RoleName(r)) == Some(r)
    ensures forall st :: ParseStatus(StatusName(st)) == Some(st)
    ensures forall st, st' :: Rank(st) == Rank(st') ==> st == st'
  {
  }
}
