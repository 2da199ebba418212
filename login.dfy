/** The demonstration login form (src/app/login/page.tsx): no password and
    no backend, it only stores a user record. */
module Login {
  import opened Wrappers
  import opened Text
  import opened Users

  const DefaultName: string := "Utilisateur"
  const MaxNameFromEmail: nat := 24

  /** The display name: the trimmed name if there is one, else at most 24
      characters of the email before its first '@', else "Utilisateur".
      The result is never empty. */
  function DisplayName(cleanEmail: string, name: string): (r: string)
    ensures r != []
    ensures !IsBlank(name) ==> r == Trim(name)
    ensures IsBlank(name) && BeforeAt(cleanEmail) != [] ==>
      r <= cleanEmail && |r| <= MaxNameFromEmail && '@' !in r
    ensures IsBlank(name) && BeforeAt(cleanEmail) != [] ==>
      r == Prefix(BeforeAt(cleanEmail), MaxNameFromEmail)
    ensures IsBlank(name) && BeforeAt(cleanEmail) == [] ==> r == DefaultName
  {
    if Trim(name) != [] then Trim(name)
    else
      var local := Prefix(BeforeAt(cleanEmail), MaxNameFromEmail);
      if local != [] then local else DefaultName
  }

  /** The record `onSubmit` would store, or `None` when the trimmed email
      is empty and the form does nothing. */
  function SubmittedUser(email: string, name: string, id: string): (r: Option<UserProfile>)
    ensures r.None? <==> IsBlank(email)
    ensures r.Some? ==> r.value.id == id && r.value.email == Some(Trim(email))
    ensures r.Some? ==> r.value.name == DisplayName(Trim(email), name) && r.value.name != []
    ensures r.Some? ==> r.value.bio == Some("") && r.value.photoUrl == None
  {
    var cleanEmail := Trim(email);
    if cleanEmail == [] then None
    else Some(UserProfile(id, DisplayName(cleanEmail, name), Some(cleanEmail), Some(""), None))
  }

  /** Without a name, an email whose part before '@' is longer than 24
      characters gives its first 24 characters. */
  lemma LongLocalPartIsCut(local: string, domain: string, name: string)
    requires '@' !in local && |local| > MaxNameFromEmail && IsBlank(name)
    ensures DisplayName(local + "@" + domain, name) == local[..MaxNameFromEmail]
  {
    BeforeAtOfPlain(local, "@" + domain);
    assert local + "@" + domain == local + ("@" + domain);
  }

  /** An email starting with '@' gives the default name. */
  lemma AtFirstEmailName()
    ensures DisplayName("@vin.fr", "") == DefaultName
  {
  }

  /** `BeforeAt` of an '@'-free string followed by one starting with '@'. */
  lemma {:induction false} BeforeAtOfPlain(a: string, b: string)
    requires '@' !in a && b != [] && b[0] == '@'
    ensures BeforeAt(a + b) == a
  {
    if a != [] {
      assert (a + b)[1..] == a[1..] + b;
      BeforeAtOfPlain(a[1..], b);
    }
  }

  /** The login page: the two inputs. */
  class LoginPage {
    var email: string
    var name: string

    constructor ()
      ensures email == "" && name == ""
    {
      email := "";
      name := "";
    }

    /** `onSubmit`; `id` stands for the fresh UUID. */
    method OnSubmit(slot: UserSlot, id: string) returns (stored: bool)
      modifies slot
      ensures stored <==> !IsBlank(email)
      ensures stored ==> slot.user == SubmittedUser(email, name, id)
      ensures !stored ==> slot.user == old(slot.user)
    {
      var cleanEmail := Trim(email);
      if cleanEmail == [] {
        return false;
      }
      slot.SetUser(UserProfile(id, DisplayName(cleanEmail, name), Some(cleanEmail), Some(""), None));
      stored := true;
    }
  }
}
