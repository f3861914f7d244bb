/** The fields of a passport-github profile that the backend reads. */
module GitHub {
  import opened Js

  /** `emails` holds the `value` of each entry; an absent list is the empty one. */
  datatype Profile = Profile(
    id: string,
    username: Option<string>,
    displayName: Option<string>,
    emails: seq<Option<string>>)

  /** `profile.emails?.[0]?.value`. */
  function FirstEmail(p: Profile): Option<string> {
    if |p.emails| > 0 then p.emails[0] else None
  }
}
