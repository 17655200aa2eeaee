/** The notes page: notes with tags and a favourite flag, persisted under
    the storage key "appNotes"; the note dialog's create and edit, the
    favourites filter and search, the tag colours, the date labels and the
    counters. */
module Notes {
  import opened Wrappers
  import opened Seqs
  import opened Text
  import opened Dates
  import opened Storage

  datatype Note = Note(
    id: String,
    title: String,
    content: String,
    tags: seq<String>,
    isFavorite: bool,
    createdAt: String,
    updatedAt: String,
    color: String)

  /** The dialog's fields; tags are typed as one comma-separated string. */
  datatype NoteForm = NoteForm(title: String, content: String, tags: String, color: String)

  const EmptyForm := NoteForm("", "", "", "blue")

  /** Where the page keeps its notes. */
  const NotesKey: String := "appNotes"

  function NoteId(n: Note): String {
    n.id
  }

  // ---------------------------------------------------------------------
  // Tag colours

  const TwoTo31: int := 0x8000_0000
  const TwoTo32: int := 0x1_0000_0000

  /** ECMAScript's ToInt32 on an integral number: the value modulo 2^32, read
      as a signed 32-bit integer. */
  function ToInt32(x: int): (r: int)
    ensures -TwoTo31 <= r < TwoTo31
    ensures (x - r) % TwoTo32 == 0
    ensures -TwoTo31 <= x < TwoTo31 ==> r == x
  {
    var m := x % TwoTo32;
    if m >= TwoTo31 then m - TwoTo32 else m
  }

  /** `x << 5`: both the operand and the result are wrapped to 32 bits. */
  function ShiftLeft5(x: int): int {
    ToInt32(ToInt32(x) * 32)
  }

  /** The `hash` of `getTagColor` after the loop has read all of `s`: each
      character code is added to `(hash << 5) - hash`. Only the shift wraps;
      the subtraction and the addition are exact (see `HashBound`). */
  function Hash(s: String): int {
    if s == [] then 0
    else
      var h := Hash(s[..|s| - 1]);
      s[|s| - 1] as int + (ShiftLeft5(h) - h)
  }

  function Abs(x: int): nat {
    if x < 0 then -x else x
  }

  /** `Math.abs(hash) % 8`: which of the eight tag palette entries a tag gets. */
  function TagColorIndex(tag: String): (k: nat)
    ensures k < 8
    ensures tag == [] ==> k == 0
  {
    Abs(Hash(tag)) % 8
  }

  /** `getTagColor`: the loop over the tag's characters. */
  method GetTagColor(tag: String) returns (index: nat)
    ensures index == TagColorIndex(tag)
    ensures index < 8
  {
    var hash := 0;
    for i := 0 to |tag|
      invariant hash == Hash(tag[..i])
    {
      assert tag[..i + 1][..i] == tag[..i];
      hash := tag[i] as int + (ShiftLeft5(hash) - hash);
    }
    assert tag[..|tag|] == tag;
    index := Abs(hash) % 8;
  }

  /** Each step adds at most a character code plus 2^31 to the magnitude of
      the hash, so it stays below 2^53, where double arithmetic is exact,
      for tags of up to about four million characters. */
  lemma {:induction false} HashBound(s: String)
    ensures Abs(Hash(s)) <= |s| * (TwoTo31 + 0x11_0000)
  {
    if s != [] {
      HashBound(s[..|s| - 1]);
    }
  }

  // ---------------------------------------------------------------------
  // Date labels

  datatype DateLabel = Today | Yesterday | LocaleDate(day: Option<int>)

  /** `formatDate(dateString)`: "Hoje" for today's `YYYY-MM-DD`, "Ontem" for
      yesterday's, and otherwise the `pt-BR` rendering of the parsed date. */
  function FormatNoteDate(s: String, now: int): DateLabel {
    if s == FormatDay(DayOf(now)) then Today
    else if s == FormatDay(DayOf(now) - 1) then Yesterday
    else LocaleDate(ParseDay(s))
  }

  /** The labels go by the day the string names: "Hoje" exactly for today and
      "Ontem" exactly for the day before. */
  lemma FormatNoteDateFacts(s: String, now: int)
    requires HasFourDigitYear(DayOf(now)) && HasFourDigitYear(DayOf(now) - 1)
    ensures FormatNoteDate(s, now) == Today <==> ParseDay(s) == Some(DayOf(now))
    ensures FormatNoteDate(s, now) == Yesterday <==> ParseDay(s) == Some(DayOf(now) - 1)
  {
    FormatParseRoundTrip(DayOf(now));
    FormatParseRoundTrip(DayOf(now) - 1);
    if ParseDay(s).Some? {
      ParseFormatRoundTrip(s);
    }
  }

  // ---------------------------------------------------------------------
  // Favourite, save, edit

  function Toggled(n: Note): Note {
    n.(isFavorite := !n.isFavorite)
  }

  /** The list after `toggleFavorite(id)`. */
  function ToggleFavorite(notes: seq<Note>, id: String): seq<Note> {
    MapByKey(notes, NoteId, id, Toggled)
  }

  /** Only the favourite flag of the notes with that id changes; toggling
      twice gives the list back. */
  lemma ToggleFavoriteFacts(notes: seq<Note>, id: String)
    ensures var r := ToggleFavorite(notes, id);
            |r| == |notes|
            && (forall i :: 0 <= i < |notes| && notes[i].id == id ==>
                  r[i] == notes[i].(isFavorite := !notes[i].isFavorite))
            && (forall i :: 0 <= i < |notes| && notes[i].id != id ==> r[i] == notes[i])
    ensures ToggleFavorite(ToggleFavorite(notes, id), id) == notes
  {
    MapByKeyTwice(notes, NoteId, id, Toggled);
  }

  /** `saveNote`'s guard: a non-blank title and non-blank content. */
  predicate CanSave(f: NoteForm) {
    !IsBlank(f.title) && !IsBlank(f.content)
  }

  /** The edit branch: id, favourite flag and creation date stay, and the
      update date becomes today. */
  function ApplyForm(f: NoteForm, today: String): Note -> Note {
    (n: Note) => n.(title := f.title, content := f.content, tags := ParseCommaList(f.tags),
                    color := f.color, updatedAt := today)
  }

  /** The create branch. */
  function NewNote(id: String, f: NoteForm, today: String): Note {
    Note(id, f.title, f.content, ParseCommaList(f.tags), false, today, today, f.color)
  }

  function SavedNotes(notes: seq<Note>, f: NoteForm, editing: Option<Note>, id: String, today: String)
    : seq<Note>
  {
    if editing.Some? then MapByKey(notes, NoteId, editing.value.id, ApplyForm(f, today))
    else notes + [NewNote(id, f, today)]
  }

  /** An edited note is the note the form would create today under its own
      id, with its favourite flag and creation date kept; other notes are
      unchanged. A new note is appended, not a favourite, created and updated
      today. */
  lemma SavedNotesFacts(notes: seq<Note>, f: NoteForm, editing: Option<Note>, id: String, today: String)
    ensures var r := SavedNotes(notes, f, editing, id, today);
            if editing.Some? then
              |r| == |notes|
              && (forall i :: 0 <= i < |notes| && notes[i].id == editing.value.id ==>
                    r[i] == NewNote(notes[i].id, f, today).(isFavorite := notes[i].isFavorite,
                                                            createdAt := notes[i].createdAt))
              && (forall i :: 0 <= i < |notes| && notes[i].id != editing.value.id ==> r[i] == notes[i])
            else
              r[..|notes|] == notes && |r| == |notes| + 1 && r[|notes|] == NewNote(id, f, today)
              && !r[|notes|].isFavorite && r[|notes|].createdAt == today && r[|notes|].updatedAt == today
  {
    if editing.None? {
      assert (notes + [NewNote(id, f, today)])[..|notes|] == notes;
    }
  }

  /** `editNote`: the tags joined with ", ". */
  function FormOf(n: Note): NoteForm {
    NoteForm(n.title, n.content, Join(n.tags, ", "), n.color)
  }

  /** Opening a note and saving it untouched keeps its tags when each is
      non-empty, trimmed and free of commas, and only moves its update date. */
  lemma EditThenSave(n: Note, today: String)
    requires forall i :: 0 <= i < |n.tags| ==> IsListItem(n.tags[i])
    ensures ApplyForm(FormOf(n), today)(n) == n.(updatedAt := today)
  {
    ParseJoinRoundTrip(n.tags);
  }

  // ---------------------------------------------------------------------
  // Filtering and counting

  /** The tests of `filteredNotes`: the favourites filter, and a
      case-insensitive search in the title, the content or any tag. */
  predicate Matches(n: Note, favoritesOnly: bool, query: String) {
    (!favoritesOnly || n.isFavorite)
    && (ContainsIgnoringCase(n.title, query)
        || ContainsIgnoringCase(n.content, query)
        || exists i :: 0 <= i < |n.tags| && ContainsIgnoringCase(n.tags[i], query))
  }

  function MatchesAll(favoritesOnly: bool, query: String): Note -> bool {
    (n: Note) => Matches(n, favoritesOnly, query)
  }

  function FilteredNotes(notes: seq<Note>, favoritesOnly: bool, query: String): seq<Note> {
    Filter(notes, MatchesAll(favoritesOnly, query))
  }

  /** The view shows exactly the matching notes; a note is found through any
      one of its tags; with 'all' and an empty query every note is shown. */
  lemma FilteredNotesFacts(notes: seq<Note>, favoritesOnly: bool, query: String)
    ensures forall n :: n in FilteredNotes(notes, favoritesOnly, query)
              <==> n in notes && Matches(n, favoritesOnly, query)
    ensures forall n, i :: (n in notes && (!favoritesOnly || n.isFavorite) && 0 <= i < |n.tags|
                            && ContainsIgnoringCase(n.tags[i], query))
              ==> n in FilteredNotes(notes, favoritesOnly, query)
    ensures FilteredNotes(notes, false, "") == notes
  {
    FilterMembership(notes, MatchesAll(favoritesOnly, query));
    forall n: Note ensures ContainsIgnoringCase(n.title, "") {
      ContainsEmpty(Lower(n.title));
    }
    FilterKeepsAll(notes, MatchesAll(false, ""));
  }

  /** The distinct elements of a list. */
  function Elements(s: seq<String>): set<String> {
    set k | 0 <= k < |s| :: s[k]
  }

  /** The distinct tags of a list of notes, gathered note by note. */
  function TagsOf(notes: seq<Note>): set<String> {
    if notes == [] then {} else TagsOf(notes[..|notes| - 1]) + Elements(notes[|notes| - 1].tags)
  }

  /** A tag is collected exactly when some note carries it. */
  lemma {:induction false} TagsOfMembership(notes: seq<Note>, t: String)
    ensures t in TagsOf(notes) <==> exists i :: 0 <= i < |notes| && t in notes[i].tags
  {
    if notes != [] {
      var init := notes[..|notes| - 1];
      TagsOfMembership(init, t);
      if t in TagsOf(notes) && t !in TagsOf(init) {
        var k :| 0 <= k < |notes[|notes| - 1].tags| && notes[|notes| - 1].tags[k] == t;
        assert t in notes[|notes| - 1].tags;
      }
      if exists i :: 0 <= i < |notes| && t in notes[i].tags {
        var i :| 0 <= i < |notes| && t in notes[i].tags;
        if i == |notes| - 1 {
          var k :| 0 <= k < |notes[i].tags| && notes[i].tags[k] == t;
        } else {
          assert init[i] == notes[i];
        }
      }
    }
  }

  /** `allTags`: every tag of every note added to a set. */
  method AllTags(notes: seq<Note>) returns (tags: set<String>)
    ensures tags == TagsOf(notes)
  {
    tags := {};
    for i := 0 to |notes|
      invariant tags == TagsOf(notes[..i])
    {
      assert notes[..i + 1][..i] == notes[..i];
      var ts := notes[i].tags;
      for j := 0 to |ts|
        invariant tags == TagsOf(notes[..i]) + set k | 0 <= k < j :: ts[k]
      {
        tags := tags + {ts[j]};
      }
    }
    assert notes[..|notes|] == notes;
  }

  function IsFavorite(n: Note): bool {
    n.isFavorite
  }

  function UpdatedRecently(now: int): Note -> bool {
    (n: Note) => n.updatedAt == FormatDay(DayOf(now)) || n.updatedAt == FormatDay(DayOf(now) - 1)
  }

  /** `stats`. */
  datatype Stats = Stats(total: nat, favorites: nat, tags: nat, recentlyUpdated: nat)

  function NoteStats(notes: seq<Note>, now: int): Stats {
    Stats(|notes|, |Filter(notes, IsFavorite)|, |TagsOf(notes)|, |Filter(notes, UpdatedRecently(now))|)
  }

  /** Favourites and recent notes are among the notes; a list without tags
      has no tags to count. */
  lemma StatsFacts(notes: seq<Note>, now: int)
    ensures NoteStats(notes, now).favorites <= NoteStats(notes, now).total
    ensures NoteStats(notes, now).recentlyUpdated <= NoteStats(notes, now).total
    ensures (forall i :: 0 <= i < |notes| ==> notes[i].tags == []) ==> NoteStats(notes, now).tags == 0
  {
    if forall i :: 0 <= i < |notes| ==> notes[i].tags == [] {
      if TagsOf(notes) != {} {
        var t :| t in TagsOf(notes);
        TagsOfMembership(notes, t);
      }
    }
  }

  /** The tag badges of a note card: the first `limit` tags, and the number
      of hidden ones when there are more ("+n"). */
  function TagBadges(tags: seq<String>, limit: nat): (r: (seq<String>, Option<nat>))
    ensures |r.0| == (if |tags| < limit then |tags| else limit) && r.0 <= tags
    ensures r.1.Some? <==> |tags| > limit
    ensures r.1.Some? ==> r.1.value == |tags| - limit
  {
    (Take(tags, limit), if |tags| > limit then Some(|tags| - limit) else None)
  }

  // ---------------------------------------------------------------------
  // The page

  /** The page's state cells and the storage they are persisted to. After
      every change of `notes` the save effect writes `encode(notes)` under
      "appNotes"; `encode` stands for `JSON.stringify`. */
  class NotesPage {
    var notes: seq<Note>
    var storage: Store
    var form: NoteForm
    var editing: Option<Note>
    var dialogOpen: bool
    var favoritesOnly: bool
    var searchQuery: String
    const encode: seq<Note> -> String

    /** Mounting: the load effect replaces the sample notes with the stored
        ones when "appNotes" holds a non-empty value that parses (`decode`
        stands for `JSON.parse`, `None` for a parse error); then the save
        effect writes the notes back. */
    constructor(store: Store, sample: seq<Note>, decode: String -> Option<seq<Note>>,
                encode: seq<Note> -> String)
      ensures var saved := GetItem(store, NotesKey);
              notes == (if Truthy(saved) && decode(saved.value).Some? then decode(saved.value).value else sample)
      ensures storage == store[NotesKey := encode(notes)]
      ensures this.encode == encode
      ensures form == EmptyForm && editing == None && !dialogOpen && !favoritesOnly && searchQuery == []
    {
      var saved := GetItem(store, NotesKey);
      var loaded := sample;
      if Truthy(saved) {
        var parsed := decode(saved.value);
        if parsed.Some? {
          loaded := parsed.value;
        }
      }
      notes := loaded;
      this.encode := encode;
      storage := store[NotesKey := encode(loaded)];
      form := EmptyForm;
      editing := None;
      dialogOpen := false;
      favoritesOnly := false;
      searchQuery := [];
    }

    /** The notes on screen. */
    function Shown(): seq<Note>
      reads this
    {
      FilteredNotes(notes, favoritesOnly, searchQuery)
    }

    method SetFilters(favorites: bool, query: String)
      modifies this
      ensures favoritesOnly == favorites && searchQuery == query
      ensures notes == old(notes) && storage == old(storage) && form == old(form)
      ensures editing == old(editing) && dialogOpen == old(dialogOpen)
    {
      favoritesOnly, searchQuery := favorites, query;
    }

    /** "Nova Nota": no note is being edited and the dialog opens on an
        empty form. */
    method OpenNew()
      modifies this
      ensures editing == None && form == EmptyForm && dialogOpen
      ensures notes == old(notes) && storage == old(storage)
      ensures favoritesOnly == old(favoritesOnly) && searchQuery == old(searchQuery)
    {
      editing := None;
      form := EmptyForm;
      dialogOpen := true;
    }

    /** "Criar Nota", shown when nothing matches: the dialog opens as it
        was left, so after an edit was cancelled it reopens on that note. */
    method OpenDialog()
      modifies this
      ensures dialogOpen
      ensures notes == old(notes) && storage == old(storage) && form == old(form)
      ensures editing == old(editing) && favoritesOnly == old(favoritesOnly)
      ensures searchQuery == old(searchQuery)
    {
      dialogOpen := true;
    }

    /** "Cancelar": the dialog closes; the form and the edited note stay. */
    method CloseDialog()
      modifies this
      ensures !dialogOpen
      ensures notes == old(notes) && storage == old(storage) && form == old(form)
      ensures editing == old(editing) && favoritesOnly == old(favoritesOnly)
      ensures searchQuery == old(searchQuery)
    {
      dialogOpen := false;
    }

    method SetForm(f: NoteForm)
      modifies this
      ensures form == f
      ensures notes == old(notes) && storage == old(storage) && editing == old(editing)
      ensures dialogOpen == old(dialogOpen) && favoritesOnly == old(favoritesOnly)
      ensures searchQuery == old(searchQuery)
    {
      form := f;
    }

    /** `saveNote` followed by the save effect; `newId` is the generated id
        and `now` the clock reading whose UTC date stamps the note. */
    method SaveNote(newId: String, now: int)
      modifies this
      ensures CanSave(old(form)) ==>
                notes == SavedNotes(old(notes), old(form), old(editing), newId, FormatDay(DayOf(now)))
                && storage == old(storage)[NotesKey := encode(notes)]
                && form == EmptyForm && editing == None && !dialogOpen
      ensures !CanSave(old(form)) ==>
                notes == old(notes) && storage == old(storage) && form == old(form)
                && editing == old(editing) && dialogOpen == old(dialogOpen)
      ensures favoritesOnly == old(favoritesOnly) && searchQuery == old(searchQuery)
    {
      var f := form;
      if CanSave(f) {
        var saved := SavedNotes(notes, f, editing, newId, FormatDay(DayOf(now)));
        notes := saved;
        storage := storage[NotesKey := encode(saved)];
        form := EmptyForm;
        editing := None;
        dialogOpen := false;
      }
    }

    /** `editNote`. */
    method EditNote(n: Note)
      modifies this
      ensures editing == Some(n) && form == FormOf(n) && dialogOpen
      ensures notes == old(notes) && storage == old(storage)
      ensures favoritesOnly == old(favoritesOnly) && searchQuery == old(searchQuery)
    {
      editing := Some(n);
      form := FormOf(n);
      dialogOpen := true;
    }

    /** `deleteNote` followed by the save effect. */
    method DeleteNote(id: String)
      modifies this
      ensures notes == RemoveByKey(old(notes), NoteId, id)
      ensures storage == old(storage)[NotesKey := encode(notes)]
      ensures form == old(form) && editing == old(editing) && dialogOpen == old(dialogOpen)
      ensures favoritesOnly == old(favoritesOnly) && searchQuery == old(searchQuery)
    {
      notes := RemoveByKey(notes, NoteId, id);
      storage := storage[NotesKey := encode(notes)];
    }

    /** `toggleFavorite` followed by the save effect. */
    method ToggleFavoriteById(id: String)
      modifies this
      ensures notes == ToggleFavorite(old(notes), id)
      ensures storage == old(storage)[NotesKey := encode(notes)]
      ensures form == old(form) && editing == old(editing) && dialogOpen == old(dialogOpen)
      ensures favoritesOnly == old(favoritesOnly) && searchQuery == old(searchQuery)
    {
      notes := ToggleFavorite(notes, id);
      storage := storage[NotesKey := encode(notes)];
    }
  }
}
