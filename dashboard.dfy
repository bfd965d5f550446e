/** The dashboard's greeting: the name it shows for the signed-in user. */
module Dashboard {
  import opened Wrappers

  const FallbackName := "Studente"

  /** `email.split("@")[0]`: the email up to its first `@`, or all of it when it has none. */
  function EmailPrefix(email: string): (p: string)
    ensures p <= email
    ensures '@' !in p
    ensures |p| < |email| ==> email[|p|] == '@'
  {
    if email == [] || email[0] == '@' then []
    else [email[0]] + EmailPrefix(email[1..])
  }

  /** The three properties above pick out one prefix only. */
  lemma EmailPrefixUnique(email: string, p: string)
    requires p <= email && '@' !in p && (|p| < |email| ==> email[|p|] == '@')
    ensures EmailPrefix(email) == p
  {
    var q := EmailPrefix(email);
    assert |q| == |p|;
  }

  /** `user?.user_metadata?.display_name || user?.email?.split("@")[0] || "Studente"`: a signed-out
      user has neither a display name nor an email. */
  function DisplayName(displayName: Option<string>, email: Option<string>): (n: string)
    ensures n != ""
    ensures displayName.Some? && displayName.value != "" ==> n == displayName.value
    ensures !(displayName.Some? && displayName.value != "") && email.Some? && EmailPrefix(email.value) != [] ==>
      n == EmailPrefix(email.value)
    ensures !(displayName.Some? && displayName.value != "") && (email.None? || EmailPrefix(email.value) == []) ==>
      n == FallbackName
  {
    if displayName.Some? && displayName.value != "" then displayName.value
    else if email.Some? && EmailPrefix(email.value) != [] then EmailPrefix(email.value)
    else FallbackName
  }

  /** Without a display name, the name is either the fallback or a prefix of the email that
      contains no `@`; when the email does not start with `@`, it is the part before the
      first `@`. */
  lemma NameFromEmail(displayName: Option<string>, email: string)
    requires displayName.None? || displayName.value == ""
    ensures var n := DisplayName(displayName, Some(email));
            n == FallbackName || ('@' !in n && n <= email)
    ensures email != [] && email[0] != '@' ==> DisplayName(displayName, Some(email)) == EmailPrefix(email)
  {
  }

  /** An email starting with `@` has an empty prefix, so the fallback name is shown. */
  lemma EmailStartingWithAt(displayName: Option<string>, rest: string)
    requires displayName.None? || displayName.value == ""
    ensures DisplayName(displayName, Some("@" + rest)) == FallbackName
  {
  }

  /** For an address `local@domain` with a non-empty `local` free of `@`, the name is `local`. */
  lemma LocalPartShown(local: string, domain: string)
    requires local != [] && '@' !in local
    ensures DisplayName(None, Some(local + "@" + domain)) == local
  {
    var e := local + "@" + domain;
    assert local <= e && e[|local|] == '@';
    EmailPrefixUnique(e, local);
  }
}
