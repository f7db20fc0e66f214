/**
 * The side navigation shared by the doula and mother layouts (site generation): which
 * item is highlighted, the item badges, the avatar initials, the settings path and the
 * invite-link button.
 */
module Sidebar {
  import opened Wrappers
  import opened JsText
  import Ui

  /**
   * An item is active on its own path and, except for the two role home pages, on any
   * path that starts with its own (with no `/` boundary required).
   */
  predicate IsActive(href: string, activeItem: string) {
    activeItem == href || (href != "/doula" && href != "/mother" && StartsWith(activeItem, href))
  }

  /** Every item is active on its own page. */
  lemma ActiveOnOwnPath(href: string)
    ensures IsActive(href, href)
  {
  }

  /** The two home pages are active only on an exact match. */
  lemma HomeExactOnly(activeItem: string)
    ensures IsActive("/doula", activeItem) <==> activeItem == "/doula"
    ensures IsActive("/mother", activeItem) <==> activeItem == "/mother"
  {
  }

  /** Any other item stays active on its sub-pages ... */
  lemma ActiveOnSubPath(href: string, rest: string)
    requires href != "/doula" && href != "/mother"
    ensures IsActive(href, href + rest)
  {
    assert (href + rest)[..|href|] == href;
  }

  /** ... and also on an unrelated page whose path merely extends the text of its own. */
  lemma NoPathBoundary()
    ensures IsActive("/doula/clients", "/doula/clientsX")
  {
    ActiveOnSubPath("/doula/clients", "X");
  }

  /** What the badge expression `badge && !isActive && <pill/>` renders. */
  datatype BadgeView = NoBadge | Pill(count: int) | BareZero

  /**
   * A non-zero badge is shown as a pill only while its item is inactive. A badge of 0
   * short-circuits to the number 0, which React renders as the text `0`.
   */
  function BadgeOf(badge: Option<int>, active: bool): (r: BadgeView)
    ensures r.Pill? <==> badge.Some? && badge.value != 0 && !active
    ensures r.Pill? ==> r.count == badge.value
    ensures r == BareZero <==> badge == Some(0)
  {
    match badge
    case None => NoBadge
    case Some(n) => if n == 0 then BareZero else if active then NoBadge else Pill(n)
  }

  /** The pill never shows on the highlighted item. */
  lemma NoPillWhenActive(badge: Option<int>, href: string)
    ensures !BadgeOf(badge, IsActive(href, href)).Pill?
  {
  }

  /**
   * `getInitials`: the first characters of the space-separated words, at most two;
   * `??` when the name is missing or yields no initials.
   */
  function Initials(name: Option<string>): (r: string)
    ensures 1 <= |r| <= 2
    ensures name.Some? && Ui.WordInitials(name.value) != [] ==> r == Ui.WordInitials(name.value)
    ensures name.None? || Ui.WordInitials(name.value) == [] ==> r == "??"
  {
    if name.None? then "??"
    else
      var w := Ui.WordInitials(name.value);
      if w == [] then "??" else w
  }

  /** The placeholder appears exactly for a missing name or one made of spaces. */
  lemma InitialsPlaceholderIff(name: Option<string>)
    requires name.None? || '?' !in name.value
    ensures Initials(name) == "??" <==> name.None? || forall i :: 0 <= i < |name.value| ==> name.value[i] == ' '
  {
    if name.Some? {
      Ui.WordInitialsEmptyIff(name.value);
      var w := Ui.WordInitials(name.value);
      if w != [] {
        var f := Ui.Firsts(Split(name.value, ' '));
        FirstsFromName(name.value, c => c == ' ');
        assert w[0] == f[0];
      }
    }
  }

  /** The initials are drawn from the characters of the name. */
  lemma {:induction false} FirstsFromName(s: string, isSep: char -> bool)
    ensures forall i :: 0 <= i < |Ui.Firsts(SplitWhere(s, isSep))| ==> Ui.Firsts(SplitWhere(s, isSep))[i] in s
  {
    if s != [] {
      FirstsFromName(s[1..], isSep);
      var t := SplitWhere(s[1..], isSep);
      var f := Ui.Firsts(SplitWhere(s, isSep));
      if isSep(s[0]) {
        assert ([[]] + t)[1..] == t;
        assert f == Ui.Firsts(t);
      } else {
        var r := [[s[0]] + t[0]] + t[1..];
        assert r[1..] == t[1..];
        assert f == [s[0]] + Ui.Firsts(t[1..]);
        var ft := Ui.Firsts(t);
        var head := if t[0] == [] then [] else [t[0][0]];
        assert ft == head + Ui.Firsts(t[1..]);
        forall i | 1 <= i < |f| ensures f[i] in s {
          assert f[i] == ft[i - 1 + |head|];
          assert f[i] in s[1..];
        }
      }
    }
  }

  /** `profile?.role === "doula" ? "/doula/settings" : "/mother/settings"`. */
  function SettingsPath(role: Option<string>): (r: string)
    ensures r == "/doula/settings" <==> role == Some("doula")
    ensures r == "/mother/settings" <==> role != Some("doula")
  {
    if role == Some("doula") then "/doula/settings" else "/mother/settings"
  }

  /** The sidebar's own state: whether the invite link was just copied. */
  class SidebarState {
    var copied: bool

    constructor()
      ensures !copied
    {
      copied := false;
    }

    /**
     * `handleCopyInvite`: without a profile id nothing is copied and nothing changes;
     * otherwise the invite link goes to the clipboard and the button shows it was copied.
     */
    method HandleCopyInvite(profileId: Option<string>, origin: string) returns (clipboard: Option<string>)
      modifies this
      ensures clipboard == Ui.CopyInvite(profileId, origin)
      ensures copied == (clipboard.Some? || old(copied))
    {
      clipboard := Ui.CopyInvite(profileId, origin);
      if clipboard.Some? {
        copied := true;
      }
    }

    /** The timer two seconds later resets the button. */
    method CopiedTimeout()
      modifies this
      ensures !copied
    {
      copied := false;
    }
  }
}
