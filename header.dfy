/**
 * The site header: the avatar initials of the signed-in user and the
 * fallbacks used for the avatar's label and alternative text.
 */
module Header {
  import opened Js
  import opened JsString
  import opened PocketBase

  /**
   * The upper-cased first characters of the first and the last word of a
   * trimmed name that has at least two words: the first character of the
   * name and the character just after its last white space. Both words are
   * non-empty, so both characters exist.
   */
  function WordInitials(t: string): (r: string)
    requires t != [] && NoEdgeSpace(t) && HasSpace(t)
    ensures 0 < LastWordStart(t) < |t|
    ensures r == [ToUpperChar(t[0]), ToUpperChar(t[LastWordStart(t)])]
  {
    var parts := Split(t);
    SplitCount(t);
    SplitPiecesNonEmpty(t);
    SplitFirst(t);
    SplitLast(t);
    var k := LastWordStart(t);
    assert 0 < k < |t| by {
      assert !IsSpace(t[|t| - 1]);
      if k == 0 {
        assert false;
      }
    }
    assert parts[|parts| - 1][0] == t[k];
    ToUpperCasePair(parts[0][0], parts[|parts| - 1][0]);
    ToUpperCase([parts[0][0], parts[|parts| - 1][0]])
  }

  /**
   * getInitials: with a truthy name, the initials of the first and the last
   * word of the trimmed name when it has at least two words, else the first
   * two characters of the untrimmed name; otherwise the first two characters
   * of a truthy email; otherwise "??". All upper-cased.
   */
  function GetInitials(name: Option<string>, email: Option<string>): (r: string)
    ensures 1 <= |r| <= 2
  {
    if Truthy(name) then
      var t := Trim(name.value);
      if |Split(t)| >= 2 then
        SplitCount(t);
        WordInitials(t)
      else
        ToUpperCase(Prefix(name.value, 2))
    else if Truthy(email) then
      ToUpperCase(Prefix(email.value, 2))
    else
      "??"
  }

  /**
   * A name whose trimmed form has two or more words gives two initials: the
   * first character of the trimmed name and the character just after its
   * last white space, upper-cased. The email plays no part.
   */
  lemma InitialsOfSeveralWords(name: string, email: Option<string>)
    requires name != "" && HasSpace(Trim(name))
    ensures var t := Trim(name);
            && 0 < LastWordStart(t) < |t|
            && GetInitials(Some(name), email) == [ToUpperChar(t[0]), ToUpperChar(t[LastWordStart(t)])]
  {
    var t := Trim(name);
    SplitCount(t);
    assert GetInitials(Some(name), email) == WordInitials(t);
  }

  /**
   * A name that trims to fewer than two words gives the first two characters
   * of the untrimmed name, upper-cased, white space included.
   */
  lemma InitialsOfOneWord(name: string, email: Option<string>)
    requires name != "" && !HasSpace(Trim(name))
    ensures GetInitials(Some(name), email) == ToUpperCase(Prefix(name, 2))
  {
    SplitCount(Trim(name));
  }

  /**
   * Leading white space is not trimmed away in the one-word case: a name
   * such as "  Bob" gives its two leading blanks.
   */
  lemma LeadingSpaceKept(name: string, email: Option<string>)
    requires |name| >= 2 && IsSpace(name[0]) && IsSpace(name[1])
    requires !HasSpace(Trim(name))
    ensures GetInitials(Some(name), email) == name[..2]
  {
    InitialsOfOneWord(name, email);
  }

  /** A name made only of white space gives blanks, not "??", and hides the email. */
  lemma BlankNameGivesBlanks(name: string, email: Option<string>)
    requires name != "" && forall i :: 0 <= i < |name| ==> IsSpace(name[i])
    ensures GetInitials(Some(name), email) == Prefix(name, 2)
    ensures GetInitials(Some(name), email) != "??"
  {
    var t := Trim(name);
    var i :| TrimmedAt(name, t, i);
    assert t == [];
    InitialsOfOneWord(name, email);
  }

  /** "  Bob" gives two blanks, not "BO". */
  lemma LeadingBlanksExample()
    ensures GetInitials(Some("  Bob"), None) == "  "
  {
    InitialsOfOneWord("  Bob", None);
  }

  /** A blank name gives blanks even when an email is present. */
  lemma BlankNameExample()
    ensures GetInitials(Some("   "), Some("x@y.z")) == "  "
  {
    InitialsOfOneWord("   ", Some("x@y.z"));
  }

  /** " ada  lee " gives "AL": surrounding and repeated white space are skipped. */
  lemma TwoWordExample()
    ensures GetInitials(Some(" ada  lee "), None) == "AL"
  {
    var t := " ada  lee ";
    var u := "ada  lee";
    assert SpaceEnd(t, 1) == 1;
    assert SpaceEnd(t, 0) == 1;
    assert SpaceStart(t, 1, 9) == 9;
    assert SpaceStart(t, 1, 10) == 9;
    assert t[1..9] == u;
    assert IsSpace(u[3]);
    LastWordStartUnique(u, 5);
    InitialsOfSeveralWords(t, None);
  }

  /**
   * The email is consulted only when the name is absent or empty; with
   * neither, the placeholder "??" is shown.
   */
  lemma InitialsFallbacks(name: Option<string>, email: Option<string>, other: Option<string>)
    ensures Truthy(name) ==> GetInitials(name, email) == GetInitials(name, other)
    ensures !Truthy(name) && Truthy(email) ==> GetInitials(name, email) == ToUpperCase(Prefix(email.value, 2))
    ensures !Truthy(name) && !Truthy(email) ==> GetInitials(name, email) == "??"
  {
  }

  /** `getInitials(user?.name, user?.email)` for the header avatar. */
  function AvatarInitials(user: Option<AuthUser>): (r: string)
    ensures 1 <= |r| <= 2
    ensures user.None? ==> r == "??"
  {
    GetInitials(NameOf(user), EmailOf(user))
  }

  /** `user?.name || user?.email`: the label beside the avatar. */
  function DisplayLabel(user: Option<AuthUser>): (r: Option<string>)
    ensures Truthy(NameOf(user)) ==> r == NameOf(user)
    ensures !Truthy(NameOf(user)) ==> r == EmailOf(user)
    ensures user.None? ==> r.None?
  {
    Or(NameOf(user), EmailOf(user))
  }

  /** `user?.name || user?.email || "User"`: the avatar's alternative text is never empty. */
  function AvatarAlt(user: Option<AuthUser>): (r: string)
    ensures r != ""
    ensures Truthy(NameOf(user)) ==> r == NameOf(user).value
    ensures !Truthy(NameOf(user)) && Truthy(EmailOf(user)) ==> r == EmailOf(user).value
    ensures !Truthy(NameOf(user)) && !Truthy(EmailOf(user)) ==> r == "User"
  {
    var alt := Or(DisplayLabel(user), Some("User"));
    alt.value
  }
}
