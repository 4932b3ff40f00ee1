/**
 * The mobile app's root layout: the publishable-key check at start-up and the
 * auth guard that redirects between the signed-out and signed-in route groups.
 */
module RootLayout {
  import opened Wrappers

  const AuthGroup: string := "(auth)"
  const TabsGroup: string := "(tabs)"

  /** The two redirects the guard issues, with the route each replaces the current one with. */
  datatype Redirect = ToSignIn | ToTabs {
    function Path(): string {
      match this
      case ToSignIn => "/(auth)/sign-in"
      case ToTabs => "/(tabs)"
    }

    /** The first route segment once the redirect has landed. */
    function Group(): (r: string)
      ensures r == (if this.ToSignIn? then AuthGroup else TabsGroup)
      ensures Path() == "/" + r || Path() == "/" + r + "/sign-in"
    {
      match this
      case ToSignIn => AuthGroup
      case ToTabs => TabsGroup
    }
  }

  /** `segments[0] === group`: an empty route has no first segment. */
  predicate InGroup(segments: seq<string>, group: string) {
    |segments| > 0 && segments[0] == group
  }

  /** The decision the guard's effect takes; None means no navigation. */
  function GuardRedirect(isLoaded: bool, isSignedIn: bool, segments: seq<string>): (r: Option<Redirect>)
    ensures !isLoaded ==> r.None?
    ensures r == Some(ToSignIn) <==> isLoaded && !isSignedIn && InGroup(segments, TabsGroup)
    ensures r == Some(ToTabs) <==> isLoaded && isSignedIn && InGroup(segments, AuthGroup)
  {
    if !isLoaded then None
    else if !isSignedIn && InGroup(segments, TabsGroup) then Some(ToSignIn)
    else if isSignedIn && InGroup(segments, AuthGroup) then Some(ToTabs)
    else None
  }

  /** What the guard renders: the loading indicator until auth is loaded, then its children. */
  datatype View = Loading | Children

  function GuardView(isLoaded: bool): (r: View)
    ensures r == Loading <==> !isLoaded
  {
    if isLoaded then Children else Loading
  }

  /** Re-evaluating the guard at the group it redirected to asks for no further redirect. */
  lemma RedirectIsIdempotent(isSignedIn: bool, segments: seq<string>, rest: seq<string>)
    ensures var r := GuardRedirect(true, isSignedIn, segments);
            r.Some? ==> GuardRedirect(true, isSignedIn, [r.value.Group()] + rest).None?
  {
  }

  /** Signed out in the auth group and signed in among the tabs are both left alone. */
  lemma SettledRoutesStay(rest: seq<string>)
    ensures GuardRedirect(true, false, [AuthGroup] + rest).None?
    ensures GuardRedirect(true, true, [TabsGroup] + rest).None?
    ensures GuardRedirect(true, false, []).None? && GuardRedirect(true, true, []).None?
  {
  }

  const MissingClerkKey: string :=
    "Missing EXPO_PUBLIC_CLERK_PUBLISHABLE_KEY. Please add it to your .env.local file. Get it from https://dashboard.clerk.com"
  const MissingLayoutKey: string := "Missing EXPO_PUBLIC_CLERK_PUBLISHABLE_KEY. Please set it in your .env file."

  /** `getClerkPublishableKey`: an unset or empty key throws. */
  function GetClerkPublishableKey(key: Option<string>): (r: Result<string, string>)
    ensures r.Ok? <==> key.Some? && key.value != ""
    ensures r.Ok? ==> r.value == key.value
    ensures r.Err? ==> r.error == MissingClerkKey
  {
    if key.Some? && key.value != "" then Ok(key.value) else Err(MissingClerkKey)
  }

  /**
   * `RootLayout`: Ok carries the key the Clerk provider is given, Err the message
   * of the error thrown instead of rendering.
   */
  function RenderRoot(key: Option<string>): (r: Result<string, string>)
    ensures r.Ok? <==> key.Some? && key.value != ""
    ensures r.Ok? ==> r.value == key.value
    ensures r.Err? ==> r.error == MissingClerkKey
  {
    match GetClerkPublishableKey(key)
    case Err(message) => Err(message)
    case Ok(publishableKey) =>
      if publishableKey == "" then Err(MissingLayoutKey) else Ok(publishableKey)
  }
}
