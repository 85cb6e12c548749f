/**
 * The company card (components/companies/CompanyCard.tsx): the avatar's
 * initials and the specialization badges, capped at three with a "+N mehr"
 * badge for the rest.
 */
module CompanyCard {
  import opened Records
  import opened Text
  import opened Seqs

  /**
   * `.map(word => word[0]).join('')`: the first character of each word. An empty
   * word's `word[0]` is undefined, which `join` renders as nothing.
   */
  function FirstChars(words: seq<string>): seq<char> {
    if words == [] then []
    else (if words[0] == "" then [] else [words[0][0]]) + FirstChars(words[1..])
  }

  function NonEmptyWord(): string -> bool {
    (w: string) => w != ""
  }

  /** The words of a name as `split(' ')` yields them, without the empty ones. */
  function Words(name: string): seq<string> {
    Filter(Split(name, ' '), NonEmptyWord())
  }

  /** `initials`: split on spaces, first characters, upper-cased, the first two. */
  function Initials(name: string): (r: string)
    ensures |r| <= 2
  {
    var all := Upper(FirstChars(Split(name, ' ')));
    all[..if |all| < 2 then |all| else 2]
  }

  /** FirstChars takes one character from each non-empty word, in order. */
  lemma {:induction false} FirstCharsMeaning(words: seq<string>)
    ensures |FirstChars(words)| == |Filter(words, NonEmptyWord())|
    ensures forall i :: 0 <= i < |FirstChars(words)| ==>
      |Filter(words, NonEmptyWord())[i]| > 0 && FirstChars(words)[i] == Filter(words, NonEmptyWord())[i][0]
  {
    if words != [] {
      FirstCharsMeaning(words[1..]);
    }
  }

  /**
   * The initials are the upper-cased first characters of the first two non-empty
   * words of the name; words never contain a space.
   */
  lemma InitialsMeaning(name: string)
    ensures var words := Words(name);
      |Initials(name)| == (if |words| < 2 then |words| else 2)
      && (forall i :: 0 <= i < |Initials(name)| ==> |words[i]| > 0 && Initials(name)[i] == UpperChar(words[i][0]))
      && (forall w :: w in words ==> ' ' !in w && w != "")
  {
    var pieces := Split(name, ' ');
    FirstCharsMeaning(pieces);
    SplitPiecesHaveNoSeparator(name, ' ');
    FilterMembership(pieces, NonEmptyWord());
  }

  /** A name written as words joined by single spaces has the words' initials. */
  lemma NameOfWords(words: seq<string>)
    requires |words| >= 1
    requires forall w :: w in words ==> ' ' !in w && w != ""
    ensures Words(Join(words, " ")) == words
    ensures |Initials(Join(words, " "))| == (if |words| < 2 then |words| else 2)
    ensures forall i :: 0 <= i < |Initials(Join(words, " "))| ==> |words[i]| > 0 && Initials(Join(words, " "))[i] == UpperChar(words[i][0])
  {
    SplitJoin(words, ' ');
    assert [' '] == " ";
    FilterAll(words, NonEmptyWord());
    InitialsMeaning(Join(words, " "));
  }

  const MaxVisible := 3

  /** `visibleSpecs`: the first three specializations at most. */
  function VisibleSpecs(specs: seq<Specialization>): (r: seq<Specialization>)
    ensures r <= specs
    ensures |r| == if |specs| < MaxVisible then |specs| else MaxVisible
  {
    if |specs| <= MaxVisible then specs else specs[..MaxVisible]
  }

  /** `remainingCount`, which is negative below three specializations. */
  function RemainingCount(specs: seq<Specialization>): int {
    |specs| - MaxVisible
  }

  /** The "+N mehr" badge is rendered when the remaining count is positive. */
  predicate ShowsMoreBadge(specs: seq<Specialization>) {
    RemainingCount(specs) > 0
  }

  /** The badge row is rendered when some specialization is visible. */
  predicate ShowsBadgeRow(specs: seq<Specialization>) {
    |VisibleSpecs(specs)| > 0
  }

  function MoreLabel(specs: seq<Specialization>): string {
    "+" + IntToString(RemainingCount(specs)) + " mehr"
  }

  /**
   * Every specialization is either shown or counted by the "+N mehr" badge, the
   * badge appears exactly when more than three exist, and without
   * specializations no row is rendered.
   */
  lemma BadgesMeaning(specs: seq<Specialization>)
    ensures ShowsMoreBadge(specs) <==> |specs| > MaxVisible
    ensures |specs| >= MaxVisible ==> |VisibleSpecs(specs)| + RemainingCount(specs) == |specs|
    ensures ShowsBadgeRow(specs) <==> |specs| > 0
    ensures |specs| - |VisibleSpecs(specs)| == if ShowsMoreBadge(specs) then RemainingCount(specs) else 0
    ensures forall i :: 0 <= i < |VisibleSpecs(specs)| ==> VisibleSpecs(specs)[i] == specs[i]
  {
  }
}
