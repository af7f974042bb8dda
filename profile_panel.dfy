/** The profile panel of the sidebar (ui/src/components/sidebar/ProfilePanel.tsx):
    the avatar initials, the display name, the email, the phone line and a
    prompt to complete the profile through the chat. */
module ProfilePanel {
  import opened Common
  import opened Types

  const CompletePrompt := "Chat to fill in your profile →"
  const NoPhoneText := "Phone: not yet collected"

  /** `getInitials`: the upper-cased first letters of both names when both
      are set, otherwise the upper-cased first character of the email, or
      `?` when the email is empty. */
  function Initials(p: UserProfile): (s: string)
    ensures 1 <= |s| <= 2
  {
    if Truthy(p.firstName) && Truthy(p.lastName) then ToUpper([p.firstName.value[0], p.lastName.value[0]])
    else if p.email != "" then ToUpper([p.email[0]])
    else "?"
  }

  /** `firstName || lastName`. */
  predicate HasName(p: UserProfile) {
    Truthy(p.firstName) || Truthy(p.lastName)
  }

  /** `displayName`: both names, missing ones as empty text, joined by a
      space and trimmed; absent when neither name is set. */
  function DisplayName(p: UserProfile): Option<string> {
    if HasName(p) then Some(Trim(p.firstName.GetOr("") + " " + p.lastName.GetOr(""))) else None
  }

  /** `isIncomplete`. */
  predicate IsIncomplete(p: UserProfile) {
    !HasName(p) || !Truthy(p.phone)
  }

  /** What the panel shows: for a profile not yet loaded only the prompt;
      otherwise the avatar, the name line when the display name is non-empty,
      the email, the phone or its placeholder, and the prompt when the
      profile is incomplete. */
  datatype PanelView =
    | PromptOnly(prompt: string)
    | Panel(initials: string, nameLine: Option<string>, email: string, phoneLine: string, completePrompt: Option<string>)

  function View(profile: Option<UserProfile>): (v: PanelView)
    ensures profile.None? <==> v.PromptOnly?
    ensures v.PromptOnly? ==> v.prompt == CompletePrompt
    ensures v.Panel? ==> && v.initials == Initials(profile.value)
                         && v.email == profile.value.email
                         && (v.completePrompt.Some? <==> IsIncomplete(profile.value))
                         && (v.nameLine.Some? ==> Some(v.nameLine.value) == DisplayName(profile.value) && v.nameLine.value != "")
                         && (Truthy(profile.value.phone) ==> v.phoneLine == profile.value.phone.value)
                         && (!Truthy(profile.value.phone) ==> v.phoneLine == NoPhoneText)
  {
    match profile
    case None => PromptOnly(CompletePrompt)
    case Some(p) =>
      var name := DisplayName(p);
      Panel(Initials(p),
            if name.Some? && name.value != "" then name else None,
            p.email,
            if Truthy(p.phone) then p.phone.value else NoPhoneText,
            if IsIncomplete(p) then Some(CompletePrompt) else None)
  }

  /** The three cases of the initials. */
  lemma InitialsCases(p: UserProfile)
    ensures Truthy(p.firstName) && Truthy(p.lastName) ==>
      Initials(p) == [ToUpperAscii(p.firstName.value[0]), ToUpperAscii(p.lastName.value[0])]
    ensures !(Truthy(p.firstName) && Truthy(p.lastName)) && p.email != "" ==>
      Initials(p) == [ToUpperAscii(p.email[0])]
    ensures !(Truthy(p.firstName) && Truthy(p.lastName)) && p.email == "" ==> Initials(p) == "?"
    ensures forall i :: 0 <= i < |Initials(p)| ==> !('a' <= Initials(p)[i] <= 'z')
  {
  }

  /** Trimming leaves alone a text that neither starts nor ends with white space. */
  lemma TrimKeeps(s: string)
    requires s != [] && !IsJsWhitespace(s[0]) && !IsJsWhitespace(s[|s| - 1])
    ensures Trim(s) == s
  {
  }

  /** Trimming drops one trailing space after such a text. */
  lemma TrimDropsSpace(s: string)
    requires s != [] && !IsJsWhitespace(s[0]) && !IsJsWhitespace(s[|s| - 1])
    ensures Trim(s + " ") == s
  {
    var t := s + " ";
    assert TrimStart(t) == t;
    assert t[..|t| - 1] == s;
  }

  /** Trimming drops one leading space before such a text. */
  lemma TrimDropsLeadingSpace(s: string)
    requires s != [] && !IsJsWhitespace(s[0]) && !IsJsWhitespace(s[|s| - 1])
    ensures Trim(" " + s) == s
  {
    var t := " " + s;
    assert t[1..] == s;
    assert TrimStart(t) == TrimStart(s) == s;
  }

  /** The display name exists exactly when a name is set; for names without
      surrounding white space it is `first last`, or the one name that is
      set. */
  lemma DisplayNameCases(p: UserProfile)
    ensures DisplayName(p).Some? <==> Truthy(p.firstName) || Truthy(p.lastName)
    ensures Truthy(p.firstName) && Truthy(p.lastName)
            && !IsJsWhitespace(p.firstName.value[0]) && !IsJsWhitespace(p.lastName.value[|p.lastName.value| - 1])
            ==> DisplayName(p) == Some(p.firstName.value + " " + p.lastName.value)
    ensures Truthy(p.firstName) && p.lastName.GetOr("") == ""
            && !IsJsWhitespace(p.firstName.value[0]) && !IsJsWhitespace(p.firstName.value[|p.firstName.value| - 1])
            ==> DisplayName(p) == Some(p.firstName.value)
    ensures p.firstName.GetOr("") == "" && Truthy(p.lastName)
            && !IsJsWhitespace(p.lastName.value[0]) && !IsJsWhitespace(p.lastName.value[|p.lastName.value| - 1])
            ==> DisplayName(p) == Some(p.lastName.value)
  {
    if Truthy(p.firstName) && Truthy(p.lastName)
       && !IsJsWhitespace(p.firstName.value[0]) && !IsJsWhitespace(p.lastName.value[|p.lastName.value| - 1]) {
      var s := p.firstName.value + " " + p.lastName.value;
      assert s[0] == p.firstName.value[0] && s[|s| - 1] == p.lastName.value[|p.lastName.value| - 1];
      TrimKeeps(s);
    }
    if Truthy(p.firstName) && p.lastName.GetOr("") == ""
       && !IsJsWhitespace(p.firstName.value[0]) && !IsJsWhitespace(p.firstName.value[|p.firstName.value| - 1]) {
      assert p.firstName.GetOr("") + " " + p.lastName.GetOr("") == p.firstName.value + " ";
      TrimDropsSpace(p.firstName.value);
    }
    if p.firstName.GetOr("") == "" && Truthy(p.lastName)
       && !IsJsWhitespace(p.lastName.value[0]) && !IsJsWhitespace(p.lastName.value[|p.lastName.value| - 1]) {
      assert p.firstName.GetOr("") + " " + p.lastName.GetOr("") == " " + p.lastName.value;
      TrimDropsLeadingSpace(p.lastName.value);
    }
  }

  /** A name of white space only counts as a name, so the profile is not
      flagged as incomplete, yet its display name is empty and no name line
      is shown. */
  lemma BlankNameHidden(p: UserProfile)
    requires p.firstName == Some(" ") && p.lastName == None && Truthy(p.phone)
    ensures DisplayName(p) == Some("")
    ensures !IsIncomplete(p)
    ensures View(Some(p)).nameLine.None? && View(Some(p)).completePrompt.None?
  {
    var t := p.firstName.GetOr("") + " " + p.lastName.GetOr("");
    assert t == "  ";
    assert IsJsWhitespace(t[0]) && t[1..] == " ";
    assert TrimStart(t) == TrimStart(t[1..]);
    assert IsJsWhitespace(t[1..][0]) && t[1..][1..] == "";
    assert TrimStart(t[1..]) == TrimStart("") == "";
    assert DisplayName(p) == Some(TrimEnd(""));
  }

  /** The profile is incomplete exactly when there is no display name or no
      phone; a profile with both gets no prompt. */
  lemma IncompleteIff(p: UserProfile)
    ensures IsIncomplete(p) <==> DisplayName(p).None? || !Truthy(p.phone)
    ensures Truthy(p.phone) && DisplayName(p).Some? ==> View(Some(p)).completePrompt.None?
    ensures p.phone.GetOr("") == "" ==> View(Some(p)).completePrompt == Some(CompletePrompt)
  {
  }
}
