/**
 * The root page of both generations, which only sends the visitor on: to the sign-in
 * page without a session, otherwise to the home page of the user's role.
 */
module RootRedirect {
  import opened Wrappers

  datatype Route = Auth | DoulaHome | MotherHome {
    function Path(): string {
      match this
      case Auth => "/auth"
      case DoulaHome => "/doula"
      case MotherHome => "/mother"
    }
  }

  /** A stored session: the user's id and the role kept in the user's metadata, if any. */
  datatype Session = Session(userId: string, metadataRole: Option<string>)

  /** Where to go, and whether the profile row had to be read to decide. */
  datatype Decision = Decision(route: Route, profileRead: bool)

  /** Anything but `doula` in the profile's role, a missing row included, means the mother's home. */
  function ByProfile(profileRole: Option<string>): (r: Route)
    ensures r == DoulaHome <==> profileRole == Some("doula")
    ensures r != Auth
  {
    if profileRole == Some("doula") then DoulaHome else MotherHome
  }

  /**
   * The site generation: no session means sign-in; a `doula` or `mother` role in the
   * metadata decides without reading the database; any other role falls back on the
   * role in the profile row (`profileRole`, the row read for the session's user).
   */
  function SiteRedirect(session: Option<Session>, profileRole: Option<string>): (r: Decision)
    ensures r.route == Auth <==> session.None?
    ensures r.profileRead <==> session.Some? && session.value.metadataRole != Some("doula")
                                             && session.value.metadataRole != Some("mother")
    ensures session.Some? && session.value.metadataRole == Some("doula") ==> r.route == DoulaHome
    ensures session.Some? && session.value.metadataRole == Some("mother") ==> r.route == MotherHome
    ensures r.profileRead ==> r.route == ByProfile(profileRole)
  {
    if session.None? then Decision(Auth, false)
    else
      var role := session.value.metadataRole;
      if role == Some("doula") then Decision(DoulaHome, false)
      else if role == Some("mother") then Decision(MotherHome, false)
      else Decision(ByProfile(profileRole), true)
  }

  /** The first generation: no user means sign-in; otherwise the profile row's role alone decides. */
  function SrcRedirect(userId: Option<string>, profileRole: Option<string>): (r: Route)
    ensures r == Auth <==> userId.None?
    ensures userId.Some? ==> r == ByProfile(profileRole)
  {
    if userId.None? then Auth else ByProfile(profileRole)
  }

  /** Every signed-in user is sent to exactly one role's home page. */
  lemma SignedInGoesHome(s: Session, profileRole: Option<string>)
    ensures SiteRedirect(Some(s), profileRole).route in {DoulaHome, MotherHome}
    ensures SrcRedirect(Some(s.userId), profileRole) in {DoulaHome, MotherHome}
  {
  }

  /**
   * The two generations send a signed-in user to the same page exactly when the metadata
   * role is missing or unknown, or agrees with the profile on whether the user is a doula.
   */
  lemma GenerationsAgreeIff(s: Session, profileRole: Option<string>)
    ensures SiteRedirect(Some(s), profileRole).route == SrcRedirect(Some(s.userId), profileRole)
        <==> (s.metadataRole != Some("doula") && s.metadataRole != Some("mother"))
             || ((s.metadataRole == Some("doula")) == (profileRole == Some("doula")))
  {
  }

  /** With no role in the metadata the site reads the profile and decides as the first generation. */
  lemma NoMetadataRoleFallsBack(s: Session, profileRole: Option<string>)
    requires s.metadataRole.None?
    ensures SiteRedirect(Some(s), profileRole) == Decision(SrcRedirect(Some(s.userId), profileRole), true)
  {
  }
}
