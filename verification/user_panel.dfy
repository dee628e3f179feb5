/** The user panel in the bottom-left corner: status dot colour, status text,
    display name and avatar initial, each a fallback chain over the profile
    (which may not be loaded yet) and the auth user's e-mail. */
module UserPanel {
  import opened Base
  import opened Text
  import opened Gateway

  /** The status-dot colour class. The three named statuses have their own
      colours and every other status, 'offline' included, is gray. */
  function StatusColor(status: string): (c: string)
    ensures c == "bg-green-500" <==> status == "online"
    ensures c == "bg-yellow-500" <==> status == "away"
    ensures c == "bg-red-500" <==> status == "busy"
    ensures c == "bg-gray-500" <==> status != "online" && status != "away" && status != "busy"
  {
    match status
    case "online" => "bg-green-500"
    case "away" => "bg-yellow-500"
    case "busy" => "bg-red-500"
    case _ => "bg-gray-500"
  }

  /** `userProfile?.status`. */
  function StatusOf(profile: Option<UserProfile>): (r: Option<string>)
    ensures profile.None? ==> r.None?
    ensures profile.Some? ==> r == profile.value.status
  {
    if profile.None? then None else profile.value.status
  }

  /** `userProfile?.displayName`. */
  function DisplayNameOf(profile: Option<UserProfile>): (r: Option<string>)
    ensures profile.None? ==> r.None?
    ensures profile.Some? ==> r == profile.value.displayName
  {
    if profile.None? then None else profile.value.displayName
  }

  /** The dot colour: a missing or empty status counts as 'online'. */
  function DotColor(profile: Option<UserProfile>): (c: string)
    ensures !Truthy(StatusOf(profile)) ==> c == "bg-green-500"
    ensures Truthy(StatusOf(profile)) ==> c == StatusColor(StatusOf(profile).value)
  {
    StatusColor(OrElse(StatusOf(profile), "online"))
  }

  /** The status line: the stored status, or "Online" when it is missing or empty. */
  function StatusText(profile: Option<UserProfile>): (t: string)
    ensures t != []
    ensures Truthy(StatusOf(profile)) ==> t == StatusOf(profile).value
    ensures !Truthy(StatusOf(profile)) ==> t == "Online"
  {
    OrElse(StatusOf(profile), "Online")
  }

  /** The name line: the profile's display name, else the e-mail's local part,
      else "User". Never empty. */
  function PanelName(profile: Option<UserProfile>, email: Option<string>): (n: string)
    ensures n != []
    ensures Truthy(DisplayNameOf(profile)) ==> n == DisplayNameOf(profile).value
    ensures !Truthy(DisplayNameOf(profile)) ==> n == EmailName(email)
  {
    OrElse(DisplayNameOf(profile), EmailName(email))
  }

  /** The avatar fallback letter: the upper-cased first character of the display
      name, else of the e-mail, else 'U'. */
  function Initial(profile: Option<UserProfile>, email: Option<string>): (c: char)
    ensures Truthy(DisplayNameOf(profile)) ==> c == UpperChar(DisplayNameOf(profile).value[0])
    ensures !Truthy(DisplayNameOf(profile)) && Truthy(email) ==> c == UpperChar(email.value[0])
    ensures !Truthy(DisplayNameOf(profile)) && !Truthy(email) ==> c == 'U'
  {
    if Truthy(DisplayNameOf(profile)) then UpperChar(DisplayNameOf(profile).value[0])
    else if Truthy(email) then UpperChar(email.value[0])
    else 'U'
  }

  /** The initial is the first letter of the name shown beside it, upper-cased,
      whenever that name comes from the profile or from a non-empty local part. */
  lemma InitialOfShownName(profile: Option<UserProfile>, email: Option<string>)
    requires Truthy(DisplayNameOf(profile)) || (email.Some? && BeforeAt(email.value) != [])
    ensures Initial(profile, email) == UpperChar(PanelName(profile, email)[0])
  {
    if !Truthy(DisplayNameOf(profile)) {
      assert PanelName(profile, email) == BeforeAt(email.value) <= email.value;
    }
  }

  /** Without a profile, the panel shows the e-mail's local part, a green dot and "Online". */
  lemma NoProfileDefaults(email: Option<string>)
    ensures PanelName(None, email) == EmailName(email)
    ensures DotColor(None) == "bg-green-500"
    ensures StatusText(None) == "Online"
  {
  }
}
