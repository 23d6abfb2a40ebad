/** The page header: the avatar initials of the signed-in user, the unread
    badge on the bell, and the theme button's title. */
module Header {
  import opened Seqs
  import opened Strings
  import opened Types
  import opened BudgetContext

  /** `pieces.map(n => n[0]).join("")`: an empty piece has no first
      character, and `join` writes the resulting `undefined` as nothing. */
  function FirstChars(pieces: seq<string>): (r: string)
    ensures |r| <= |pieces|
    ensures |r| == |Filter(pieces, NonEmpty)|
    ensures forall i :: 0 <= i < |r| ==> r[i] == Filter(pieces, NonEmpty)[i][0]
  {
    if pieces == [] then []
    else (if pieces[0] == [] then [] else [pieces[0][0]]) + FirstChars(pieces[1..])
  }

  predicate NonEmpty(s: string) { s != [] }

  /** `getInitials`. */
  function Initials(name: string): string {
    ToUpper(FirstChars(Split(name, ' ')))
  }

  /** One upper-cased letter per non-empty word, so never more letters than
      words; an empty name gives no initials and a single word its first
      letter. */
  lemma InitialsShape(name: string)
    ensures |Initials(name)| == |Filter(Split(name, ' '), NonEmpty)| <= |Split(name, ' ')|
    ensures forall i :: 0 <= i < |Initials(name)| ==>
      Initials(name)[i] == UpperChar(Filter(Split(name, ' '), NonEmpty)[i][0])
    ensures name == "" ==> Initials(name) == ""
    ensures name != "" && ' ' !in name ==> Initials(name) == [UpperChar(name[0])]
  {
    if ' ' !in name {
      SplitWithoutSeparator(name, ' ');
    }
  }

  /** The theme the header shows. */
  datatype Theme = Light | Dark

  function ThemeTitle(theme: Theme): string {
    "Switch to " + (if theme == Dark then "light" else "dark") + " mode"
  }

  /** The title names the other theme. */
  lemma ThemeTitleOffersOther()
    ensures ThemeTitle(Dark) == "Switch to light mode"
    ensures ThemeTitle(Light) == "Switch to dark mode"
  {
  }

  /** The bell carries a badge when something is unread. */
  predicate ShowUnreadBadge(unreadCount: nat) {
    unreadCount > 0
  }

  lemma UnreadBadgeIff(ns: seq<Notification>)
    ensures ShowUnreadBadge(UnreadCount(ns)) <==> exists i :: 0 <= i < |ns| && !ns[i].read
  {
    CountPositive(ns, IsUnread);
  }
}
