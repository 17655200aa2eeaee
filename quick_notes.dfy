/** The dashboard's recent-notes widget: it reads the notes the notes page
    stores under "appNotes" and shows the five most recently updated. */
module QuickNotes {
  import opened Wrappers
  import opened Seqs
  import opened Text
  import opened Dates
  import opened Storage
  import Notes

  /** A stored note as the widget reads it: `tags` may be missing. */
  datatype QuickNote = QuickNote(
    id: String,
    title: String,
    tags: Option<seq<String>>,
    isFavorite: bool,
    updatedAt: String,
    color: String)

  /** The day of a note's update date; a date that does not parse is read as
      day 0 (see the README). */
  function UpdatedDay(n: QuickNote): int {
    ParseDay(n.updatedAt).UnwrapOr(0)
  }

  /** The sort key of `(a, b) => new Date(b.updatedAt) - new Date(a.updatedAt)`:
      later days first. */
  function Recency(n: QuickNote): int {
    -UpdatedDay(n)
  }

  /** The shown notes: sorted newest first (a stable sort) and cut to five. */
  function Recent(notes: seq<QuickNote>): seq<QuickNote> {
    Take(SortByKey(notes, Recency), 5)
  }

  /** Five notes are shown, or all when fewer are stored, newest first, notes
      updated on the same day in their stored order. */
  lemma RecentFacts(notes: seq<QuickNote>)
    ensures var r := Recent(notes);
            |r| == (if |notes| < 5 then |notes| else 5)
            && (forall i :: 0 <= i < |r| ==> r[i] in notes)
            && (forall i, j :: 0 <= i < j < |r| ==> UpdatedDay(r[i]) >= UpdatedDay(r[j]))
            && (forall k :: WithKey(r, Recency, k) <= WithKey(notes, Recency, k))
  {
    SmallestFacts(notes, Recency, 5);
    var r := Recent(notes);
    assert forall i, j :: 0 <= i < j < |r| ==> Recency(r[i]) <= Recency(r[j]);
  }

  /** No stored note updated later than a shown note is left out. */
  lemma RecentKeepsNewest(notes: seq<QuickNote>, x: QuickNote, y: QuickNote)
    requires x in notes && y in Recent(notes) && UpdatedDay(x) > UpdatedDay(y)
    ensures x in Recent(notes)
  {
    var s := SortByKey(notes, Recency);
    SortByKeyFacts(notes, Recency);
    assert x in multiset(s);
    PrefixOfSortedIsLeast(s, Recency, 5, x, y);
  }

  /** What `loadNotes` puts on screen: nothing when "appNotes" is absent or
      empty, nothing when its value does not parse as a list of notes
      (`decode` stands for `JSON.parse` and the sort, `None` for a thrown
      error), and otherwise the recent selection. */
  function Loaded(store: Store, decode: String -> Option<seq<QuickNote>>): seq<QuickNote> {
    var saved := GetItem(store, Notes.NotesKey);
    if Truthy(saved) then
      match decode(saved.value)
      case Some(ns) => Recent(ns)
      case None => []
    else []
  }

  /** The widget only ever shows notes that are stored: five of them, or all
      when fewer parse, and none when nothing is stored. */
  lemma LoadedFacts(store: Store, decode: String -> Option<seq<QuickNote>>)
    ensures |Loaded(store, decode)| <= 5
    ensures !Truthy(GetItem(store, Notes.NotesKey)) ==> Loaded(store, decode) == []
    ensures Truthy(GetItem(store, Notes.NotesKey)) && decode(store[Notes.NotesKey]).None? ==>
              Loaded(store, decode) == []
    ensures Truthy(GetItem(store, Notes.NotesKey)) && decode(store[Notes.NotesKey]).Some? ==>
              var parsed := decode(store[Notes.NotesKey]).value;
              |Loaded(store, decode)| == (if |parsed| < 5 then |parsed| else 5)
              && forall i :: 0 <= i < |Loaded(store, decode)| ==> Loaded(store, decode)[i] in parsed
  {
    var saved := GetItem(store, Notes.NotesKey);
    if Truthy(saved) && decode(saved.value).Some? {
      RecentFacts(decode(saved.value).value);
    }
  }

  /** The widget's state cell. */
  class QuickNotesWidget {
    var notes: seq<QuickNote>

    constructor()
      ensures notes == []
    {
      notes := [];
    }

    /** `loadNotes`, run on mount, on storage events and every second. */
    method LoadNotes(store: Store, decode: String -> Option<seq<QuickNote>>)
      modifies this
      ensures notes == Loaded(store, decode)
    {
      var saved := GetItem(store, Notes.NotesKey);
      if Truthy(saved) {
        var parsed := decode(saved.value);
        if parsed.Some? {
          notes := Recent(parsed.value);
        } else {
          notes := [];
        }
      } else {
        notes := [];
      }
    }
  }

  /** `formatDate(note.updatedAt)`: the same labels as the notes page's. */
  function DateLabel(n: QuickNote, now: int): Notes.DateLabel {
    Notes.FormatNoteDate(n.updatedAt, now)
  }

  /** A card reads "Hoje" exactly when the note was updated today and
      "Ontem" exactly when it was updated the day before. */
  lemma DateLabelFacts(n: QuickNote, now: int)
    requires HasFourDigitYear(DayOf(now)) && HasFourDigitYear(DayOf(now) - 1)
    ensures DateLabel(n, now) == Notes.Today <==> ParseDay(n.updatedAt) == Some(DayOf(now))
    ensures DateLabel(n, now) == Notes.Yesterday <==> ParseDay(n.updatedAt) == Some(DayOf(now) - 1)
  {
    Notes.FormatNoteDateFacts(n.updatedAt, now);
  }

  /** The palette of note card colours. */
  predicate IsCardColor(c: String) {
    c == "blue" || c == "green" || c == "yellow" || c == "purple"
    || c == "red" || c == "orange" || c == "pink" || c == "gray"
  }

  /** `getColorClasses`: the colour's own card style, or blue's for any
      colour outside the palette. */
  function ColorClasses(color: String): (c: String)
    ensures IsCardColor(c)
    ensures IsCardColor(color) ==> c == color
    ensures !IsCardColor(color) ==> c == "blue"
  {
    if IsCardColor(color) then color else "blue"
  }

  /** The tag badges of a card: none without tags, otherwise the first two
      tags (coloured as on the notes page) and "+n" for the rest. */
  function TagBadges(n: QuickNote): (r: (seq<(String, nat)>, Option<nat>))
    ensures n.tags.None? ==> r == ([], None)
    ensures n.tags.Some? ==> |r.0| == (if |n.tags.value| < 2 then |n.tags.value| else 2)
    ensures n.tags.Some? ==> (r.1.Some? <==> |n.tags.value| > 2)
    ensures n.tags.Some? && r.1.Some? ==> r.1.value == |n.tags.value| - 2
    ensures forall i :: 0 <= i < |r.0| ==> r.0[i].0 == n.tags.value[i] && r.0[i].1 == Notes.TagColorIndex(r.0[i].0)
  {
    if n.tags.None? then ([], None)
    else
      var (shown, more) := Notes.TagBadges(n.tags.value, 2);
      (seq(|shown|, i requires 0 <= i < |shown| => (shown[i], Notes.TagColorIndex(shown[i]))), more)
  }
}
