/**
 * The zod form schemas: which inputs each schema accepts and which issue it
 * reports for each failing field. `isEmail` stands for zod's email check.
 */
module Schemas {

  /** A validation issue: the field it concerns and the message shown. */
  datatype Issue = Issue(path: string, message: string)

  const MinPasswordLength := 8

  const InvalidEmail := Issue("email", "Invalid email address")
  const ShortPassword := Issue("password", "Password must be at least 8 characters long")
  const SearchRequired := Issue("search", "Search keyword is required")
  const NameRequired := Issue("name", "Name is required")
  const LocationRequired := Issue("location", "Location is required")

  /**
   * `LoginSchema`: the issues of every failing field in field order; the
   * login is accepted exactly when the e-mail passes the check and the
   * password has at least 8 characters.
   */
  function LoginIssues(email: string, password: string, isEmail: string -> bool): (issues: seq<Issue>)
    ensures |issues| == 0 <==> isEmail(email) && |password| >= MinPasswordLength
    ensures InvalidEmail in issues <==> !isEmail(email)
    ensures ShortPassword in issues <==> |password| < MinPasswordLength
    ensures forall i :: 0 <= i < |issues| ==> issues[i] == InvalidEmail || issues[i] == ShortPassword
    ensures !isEmail(email) ==> issues[0] == InvalidEmail
    ensures forall i, j :: 0 <= i < j < |issues| ==> issues[i].path != issues[j].path
  {
    (if isEmail(email) then [] else [InvalidEmail])
    + (if |password| >= MinPasswordLength then [] else [ShortPassword])
  }

  /** `searchSchema`: the keyword must be non-empty. */
  function SearchIssues(search: string): (issues: seq<Issue>)
    ensures |issues| == 0 <==> search != ""
    ensures issues == [] || issues == [SearchRequired]
  {
    if |search| >= 1 then [] else [SearchRequired]
  }

  /** `newPropertySchema`: name and location must both be non-empty; each failure is reported. */
  function NewPropertyIssues(name: string, location: string): (issues: seq<Issue>)
    ensures |issues| == 0 <==> name != "" && location != ""
    ensures NameRequired in issues <==> name == ""
    ensures LocationRequired in issues <==> location == ""
    ensures forall i :: 0 <= i < |issues| ==> issues[i] == NameRequired || issues[i] == LocationRequired
    ensures forall i, j :: 0 <= i < j < |issues| ==> issues[i].path != issues[j].path
  {
    (if |name| >= 1 then [] else [NameRequired])
    + (if |location| >= 1 then [] else [LocationRequired])
  }

}
