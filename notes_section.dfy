/** The personal-notes card of the coin detail page: long notes are cut to a
    hundred characters until the reader expands them. */
module NotesSection {
  import opened JsText

  /** The length above which the notes are cut. */
  const Limit: nat := 100
  const Ellipsis: string := "..."

  /** The collapsed text: `notes.substring(0, 100) + '...'` for long notes,
      the notes themselves otherwise. */
  function Truncated(notes: string): (t: string)
    ensures |notes| <= Limit ==> t == notes
    ensures |notes| > Limit ==> |t| == Limit + |Ellipsis| && t[..Limit] == notes[..Limit] && t[Limit..] == Ellipsis
  {
    if |notes| > Limit then notes[..Limit] + Ellipsis else notes
  }

  /** The collapsed text always starts with as much of the notes as fits. */
  lemma TruncatedKeepsPrefix(notes: string)
    ensures var n := if |notes| < Limit then |notes| else Limit;
      |Truncated(notes)| >= n && Truncated(notes)[..n] == notes[..n]
  {
  }

  /** What the card shows: the paragraph's text and, for long notes, the
      label of the toggle button. */
  datatype View = View(text: string, toggle: Option<string>)

  class Notes {
    /** The coin's notes, absent when the record has none. */
    const notes: Option<string>
    var isExpanded: bool

    constructor (notes: Option<string>)
      ensures this.notes == notes && !isExpanded
    {
      this.notes := notes;
      isExpanded := false;
    }

    /** The card, or nothing when the notes are absent or empty. */
    function Render(): (v: Option<View>)
      reads this
      ensures v.None? <==> !Truthy(notes)
      ensures v.Some? && isExpanded ==> v.value.text == notes.value
      ensures v.Some? && !isExpanded ==> v.value.text == Truncated(notes.value)
      ensures v.Some? ==> (v.value.toggle.Some? <==> |notes.value| > Limit)
      ensures v.Some? && v.value.toggle.Some? ==> v.value.toggle.value == if isExpanded then "Show less" else "Read more"
    {
      if !Truthy(notes) then None
      else
        var text := if isExpanded then notes.value else Truncated(notes.value);
        var toggle := if |notes.value| > Limit then Some(if isExpanded then "Show less" else "Read more") else None;
        Some(View(text, toggle))
    }

    /** The toggle button, which only long notes have, flips the view. */
    method Toggle()
      requires Render().Some? && Render().value.toggle.Some?
      modifies this
      ensures isExpanded == !old(isExpanded)
    {
      isExpanded := !isExpanded;
    }

    /** The card shows the notes in full exactly when they are expanded or
        short enough, with one exception: notes of 103 characters that end
        in "..." look the same collapsed, so their toggle changes nothing. */
    lemma ShowsAllIff()
      requires Truthy(notes)
      ensures Render().value.text == notes.value <==>
        isExpanded || |notes.value| <= Limit || (|notes.value| == Limit + |Ellipsis| && notes.value[Limit..] == Ellipsis)
    {
      var n := notes.value;
      if !isExpanded && |n| > Limit && Truncated(n) == n {
        assert |n| == |Truncated(n)|;
        assert n[Limit..] == Truncated(n)[Limit..];
      }
      if !isExpanded && |n| == Limit + |Ellipsis| && n[Limit..] == Ellipsis {
        assert n == n[..Limit] + n[Limit..];
      }
    }
  }
}
