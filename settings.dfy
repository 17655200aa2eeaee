/** The settings page: the settings record with its unsaved-changes flag,
    and the storage operations save, load, export, import and clear. */
module Settings {
  import opened Wrappers
  import opened Text
  import opened Storage
  import App
  import Notes

  const SettingsKey := "app_settings"
  const UserDataKey := "user_data"

  datatype SettingsData = SettingsData(
    username: String,
    email: String,
    emailNotifications: bool,
    taskReminders: bool,
    goalReminders: bool,
    weeklyReport: bool,
    reminderTime: String,
    theme: String,
    accentColor: String,
    compactMode: bool,
    showProfile: bool,
    dataCollection: bool,
    language: String,
    dateFormat: String,
    timeFormat: String,
    autoBackup: bool,
    backupFrequency: String)

  const Defaults := SettingsData("", "", true, true, true, false, "09:00", "light", "blue", false,
                                 true, true, "pt-BR", "DD/MM/YYYY", "24h", true, "weekly")

  // ---------------------------------------------------------------------
  // One setting at a time

  /** The keys of `SettingsData`. */
  datatype Key =
    | Username | Email | EmailNotifications | TaskReminders | GoalReminders | WeeklyReport
    | ReminderTime | Theme | AccentColor | CompactMode | ShowProfile | DataCollection
    | Language | DateFormat | TimeFormat | AutoBackup | BackupFrequency

  datatype Value = Text(text: String) | Flag(flag: bool)

  predicate IsFlagKey(k: Key) {
    k.EmailNotifications? || k.TaskReminders? || k.GoalReminders? || k.WeeklyReport?
    || k.CompactMode? || k.ShowProfile? || k.DataCollection? || k.AutoBackup?
  }

  /** A value of the key's own type. */
  predicate Fits(k: Key, v: Value) {
    v.Flag? == IsFlagKey(k)
  }

  /** `settings[k]` */
  function Get(s: SettingsData, k: Key): (v: Value)
    ensures Fits(k, v)
  {
    match k
    case Username => Text(s.username)
    case Email => Text(s.email)
    case EmailNotifications => Flag(s.emailNotifications)
    case TaskReminders => Flag(s.taskReminders)
    case GoalReminders => Flag(s.goalReminders)
    case WeeklyReport => Flag(s.weeklyReport)
    case ReminderTime => Text(s.reminderTime)
    case Theme => Text(s.theme)
    case AccentColor => Text(s.accentColor)
    case CompactMode => Flag(s.compactMode)
    case ShowProfile => Flag(s.showProfile)
    case DataCollection => Flag(s.dataCollection)
    case Language => Text(s.language)
    case DateFormat => Text(s.dateFormat)
    case TimeFormat => Text(s.timeFormat)
    case AutoBackup => Flag(s.autoBackup)
    case BackupFrequency => Text(s.backupFrequency)
  }

  /** `{ ...s, [k]: v }`: every field copied, except the one named by `k`. */
  function Set(s: SettingsData, k: Key, v: Value): SettingsData
    requires Fits(k, v)
  {
    match k
    case Username => s.(username := v.text)
    case Email => s.(email := v.text)
    case EmailNotifications => s.(emailNotifications := v.flag)
    case TaskReminders => s.(taskReminders := v.flag)
    case GoalReminders => s.(goalReminders := v.flag)
    case WeeklyReport => s.(weeklyReport := v.flag)
    case ReminderTime => s.(reminderTime := v.text)
    case Theme => s.(theme := v.text)
    case AccentColor => s.(accentColor := v.text)
    case CompactMode => s.(compactMode := v.flag)
    case ShowProfile => s.(showProfile := v.flag)
    case DataCollection => s.(dataCollection := v.flag)
    case Language => s.(language := v.text)
    case DateFormat => s.(dateFormat := v.text)
    case TimeFormat => s.(timeFormat := v.text)
    case AutoBackup => s.(autoBackup := v.flag)
    case BackupFrequency => s.(backupFrequency := v.text)
  }

  /** Two settings records are equal when they agree on every key. */
  lemma SameOnEveryKey(s: SettingsData, t: SettingsData)
    requires forall k :: Get(s, k) == Get(t, k)
    ensures s == t
  {
    assert Get(s, Username) == Get(t, Username) && Get(s, Email) == Get(t, Email);
    assert Get(s, EmailNotifications) == Get(t, EmailNotifications);
    assert Get(s, TaskReminders) == Get(t, TaskReminders);
    assert Get(s, GoalReminders) == Get(t, GoalReminders);
    assert Get(s, WeeklyReport) == Get(t, WeeklyReport);
    assert Get(s, ReminderTime) == Get(t, ReminderTime) && Get(s, Theme) == Get(t, Theme);
    assert Get(s, AccentColor) == Get(t, AccentColor) && Get(s, CompactMode) == Get(t, CompactMode);
    assert Get(s, ShowProfile) == Get(t, ShowProfile);
    assert Get(s, DataCollection) == Get(t, DataCollection);
    assert Get(s, Language) == Get(t, Language) && Get(s, DateFormat) == Get(t, DateFormat);
    assert Get(s, TimeFormat) == Get(t, TimeFormat) && Get(s, AutoBackup) == Get(t, AutoBackup);
    assert Get(s, BackupFrequency) == Get(t, BackupFrequency);
  }

  /** Setting a key changes that key to the new value and no other key, and
      setting a key to the value it has changes nothing. */
  lemma SetChangesOneKey(s: SettingsData, k: Key, v: Value)
    requires Fits(k, v)
    ensures Get(Set(s, k, v), k) == v
    ensures forall k' :: k' != k ==> Get(Set(s, k, v), k') == Get(s, k')
    ensures Set(s, k, Get(s, k)) == s
  {
    forall k' | k' != k ensures Get(Set(s, k, v), k') == Get(s, k') {
      SetKeepsOtherKey(s, k, v, k');
    }
    SetSameKey(s, k, v);
  }

  lemma SetSameKey(s: SettingsData, k: Key, v: Value)
    requires Fits(k, v)
    ensures Get(Set(s, k, v), k) == v
    ensures Set(s, k, Get(s, k)) == s
  {
    SetOwnValue(s, k);
    match k {
      case Username =>
      case Email =>
      case EmailNotifications =>
      case TaskReminders =>
      case GoalReminders =>
      case WeeklyReport =>
      case ReminderTime =>
      case Theme =>
      case AccentColor =>
      case CompactMode =>
      case ShowProfile =>
      case DataCollection =>
      case Language =>
      case DateFormat =>
      case TimeFormat =>
      case AutoBackup =>
      case BackupFrequency =>
    }
  }

  lemma SetOwnValue(s: SettingsData, k: Key)
    ensures Set(s, k, Get(s, k)) == s
  {
    match k {
      case Username =>
      case Email =>
      case EmailNotifications =>
      case TaskReminders =>
      case GoalReminders =>
      case WeeklyReport =>
      case ReminderTime =>
      case Theme =>
      case AccentColor =>
      case CompactMode =>
      case ShowProfile =>
      case DataCollection =>
      case Language =>
      case DateFormat =>
      case TimeFormat =>
      case AutoBackup =>
      case BackupFrequency =>
    }
  }

  lemma SetKeepsOtherKey(s: SettingsData, k: Key, v: Value, other: Key)
    requires Fits(k, v) && other != k
    ensures Get(Set(s, k, v), other) == Get(s, other)
  {
    match k {
      case Username =>
      case Email =>
      case EmailNotifications =>
      case TaskReminders =>
      case GoalReminders =>
      case WeeklyReport =>
      case ReminderTime =>
      case Theme =>
      case AccentColor =>
      case CompactMode =>
      case ShowProfile =>
      case DataCollection =>
      case Language =>
      case DateFormat =>
      case TimeFormat =>
      case AutoBackup =>
      case BackupFrequency =>
    }
  }

  // ---------------------------------------------------------------------
  // Load

  /** A user record as the page reads it from "user_data": either field may
      be missing. */
  datatype StoredUser = StoredUser(name: Option<String>, email: Option<String>)

  /** The mount effect: saved settings replace the defaults; then the stored
      user's name and email, or "" when missing, replace username and email.
      `decodeSettings` and `decodeUser` stand for `JSON.parse`. */
  function Loaded(store: Store, decodeSettings: String -> Option<SettingsData>,
                  decodeUser: String -> Option<StoredUser>): (s: SettingsData)
  {
    var saved := GetItem(store, SettingsKey);
    var base := if Truthy(saved) && decodeSettings(saved.value).Some? then decodeSettings(saved.value).value
                else Defaults;
    var user := GetItem(store, UserDataKey);
    if Truthy(user) && decodeUser(user.value).Some? then
      var u := decodeUser(user.value).value;
      base.(username := u.name.UnwrapOr(""), email := u.email.UnwrapOr(""))
    else base
  }

  /** With nothing stored the defaults stand; every setting other than
      username and email comes from the saved settings when there are any;
      the account fields follow the stored user when there is one. */
  lemma LoadedFacts(store: Store, decodeSettings: String -> Option<SettingsData>,
                    decodeUser: String -> Option<StoredUser>)
    ensures SettingsKey !in store && UserDataKey !in store ==> Loaded(store, decodeSettings, decodeUser) == Defaults
    ensures var saved := GetItem(store, SettingsKey);
            Truthy(saved) && decodeSettings(saved.value).Some? ==>
              forall k :: k != Username && k != Email ==>
                Get(Loaded(store, decodeSettings, decodeUser), k) == Get(decodeSettings(saved.value).value, k)
    ensures var user := GetItem(store, UserDataKey);
            Truthy(user) && decodeUser(user.value).Some? ==>
              Loaded(store, decodeSettings, decodeUser).username == decodeUser(user.value).value.name.UnwrapOr("")
              && Loaded(store, decodeSettings, decodeUser).email == decodeUser(user.value).value.email.UnwrapOr("")
  {
  }

  /** The application saves the registered user under "userData", but this
      page reads "user_data": a registration never reaches the account
      fields shown here. */
  lemma RegistrationNotSeen(store: Store, text: String, decodeSettings: String -> Option<SettingsData>,
                            decodeUser: String -> Option<StoredUser>)
    ensures Loaded(App.RegisterStore(store, text), decodeSettings, decodeUser)
         == Loaded(store[App.AuthKey := "true"], decodeSettings, decodeUser)
    ensures GetItem(App.RegisterStore(store, text), UserDataKey) == GetItem(store, UserDataKey)
  {
    assert UserDataKey != App.UserKey && UserDataKey != App.AuthKey && SettingsKey != App.UserKey;
    assert GetItem(App.RegisterStore(store, text), UserDataKey) == GetItem(store[App.AuthKey := "true"], UserDataKey);
    assert GetItem(App.RegisterStore(store, text), SettingsKey) == GetItem(store[App.AuthKey := "true"], SettingsKey);
  }

  // ---------------------------------------------------------------------
  // Export, import and clear

  const TasksKey := "tasks"
  const NotesKey := "notes"
  const GoalsKey := "goals"
  const EventsKey := "events"

  /** `localStorage.getItem(k) || '[]'`: the stored list text, or the empty
      list when the key is absent or empty. */
  function ListOrEmpty(store: Store, k: String): (r: String)
    ensures Truthy(GetItem(store, k)) ==> r == store[k]
    ensures !Truthy(GetItem(store, k)) ==> r == "[]"
  {
    var v := GetItem(store, k);
    if Truthy(v) then v.value else "[]"
  }

  /** The backup file's content, with each list kept as its JSON text. */
  datatype Backup = Backup(settings: SettingsData, tasks: String, notes: String, goals: String, events: String)

  /** `exportData`'s bundle: the settings in use and four stored lists. */
  function ExportBundle(settings: SettingsData, store: Store): (b: Backup)
    ensures b.settings == settings
    ensures b.tasks == ListOrEmpty(store, TasksKey) && b.notes == ListOrEmpty(store, NotesKey)
    ensures b.goals == ListOrEmpty(store, GoalsKey) && b.events == ListOrEmpty(store, EventsKey)
  {
    Backup(settings, ListOrEmpty(store, TasksKey), ListOrEmpty(store, NotesKey),
           ListOrEmpty(store, GoalsKey), ListOrEmpty(store, EventsKey))
  }

  /** The notes the notes page keeps are not in the bundle: it reads "notes",
      while the notes page stores under "appNotes". */
  lemma ExportMissesAppNotes(settings: SettingsData, store: Store, text: String)
    ensures ExportBundle(settings, store[Notes.NotesKey := text]) == ExportBundle(settings, store)
  {
    var s2 := store[Notes.NotesKey := text];
    assert Notes.NotesKey != TasksKey && Notes.NotesKey != NotesKey;
    assert Notes.NotesKey != GoalsKey && Notes.NotesKey != EventsKey;
    assert GetItem(s2, TasksKey) == GetItem(store, TasksKey);
    assert GetItem(s2, NotesKey) == GetItem(store, NotesKey);
    assert GetItem(s2, GoalsKey) == GetItem(store, GoalsKey);
    assert GetItem(s2, EventsKey) == GetItem(store, EventsKey);
  }

  /** A parsed backup file: each section is present (truthy) or not, and a
      present section is held as the JSON text it is stored as. */
  datatype ImportFile = ImportFile(
    settings: Option<String>, tasks: Option<String>, notes: Option<String>,
    goals: Option<String>, events: Option<String>)

  /** The section of the file that is written under storage key `k`. */
  function Section(f: ImportFile, k: String): Option<String> {
    if k == SettingsKey then f.settings
    else if k == TasksKey then f.tasks
    else if k == NotesKey then f.notes
    else if k == GoalsKey then f.goals
    else if k == EventsKey then f.events
    else None
  }

  /** The five keys a backup touches are five different keys. */
  lemma KeysDistinct()
    ensures SettingsKey != TasksKey && SettingsKey != NotesKey && SettingsKey != GoalsKey && SettingsKey != EventsKey
    ensures TasksKey != NotesKey && TasksKey != GoalsKey && TasksKey != EventsKey
    ensures NotesKey != GoalsKey && NotesKey != EventsKey && GoalsKey != EventsKey
  {
    assert SettingsKey[0] != TasksKey[0] && SettingsKey[0] != NotesKey[0];
    assert SettingsKey[0] != GoalsKey[0] && SettingsKey[0] != EventsKey[0];
    assert TasksKey[0] != NotesKey[0] && TasksKey[0] != GoalsKey[0] && TasksKey[0] != EventsKey[0];
    assert NotesKey[0] != GoalsKey[0] && NotesKey[0] != EventsKey[0] && GoalsKey[0] != EventsKey[0];
  }

  /** `if (section) localStorage.setItem(k, section)` */
  function Put(s: Store, k: String, v: Option<String>): Store {
    if v.Some? then s[k := v.value] else s
  }

  lemma PutGet(s: Store, k: String, v: Option<String>, other: String)
    ensures GetItem(Put(s, k, v), other) == if other == k && v.Some? then v else GetItem(s, other)
  {
  }

  /** The keys `clearAllData` removes. */
  const ClearedKeys := {TasksKey, NotesKey, GoalsKey, EventsKey}

  /** The page's state cells and the storage it writes. */
  class SettingsPage {
    var settings: SettingsData
    var hasChanges: bool
    var storage: Store
    const encode: SettingsData -> String

    /** Mounting runs the load effect. */
    constructor(store: Store, decodeSettings: String -> Option<SettingsData>,
                decodeUser: String -> Option<StoredUser>, encode: SettingsData -> String)
      ensures settings == Loaded(store, decodeSettings, decodeUser) && !hasChanges && storage == store
      ensures this.encode == encode
    {
      settings := Loaded(store, decodeSettings, decodeUser);
      hasChanges := false;
      storage := store;
      this.encode := encode;
    }

    /** `updateSetting` */
    method UpdateSetting(k: Key, v: Value)
      modifies this
      requires Fits(k, v)
      ensures settings == Set(old(settings), k, v) && hasChanges && storage == old(storage)
    {
      settings := Set(settings, k, v);
      hasChanges := true;
    }

    /** `saveSettings`: the settings are stored as JSON and the changes flag
        clears. */
    method SaveSettings()
      modifies this
      ensures storage == old(storage)[SettingsKey := encode(settings)]
      ensures !hasChanges && settings == old(settings)
    {
      storage := storage[SettingsKey := encode(settings)];
      hasChanges := false;
    }

    /** `exportData` makes no change; the file is the bundle. */
    method ExportData() returns (b: Backup)
      ensures b == ExportBundle(settings, storage)
    {
      var tasks := ListOrEmpty(storage, TasksKey);
      var notes := ListOrEmpty(storage, NotesKey);
      var goals := ListOrEmpty(storage, GoalsKey);
      var events := ListOrEmpty(storage, EventsKey);
      b := Backup(settings, tasks, notes, goals, events);
    }

    /** `importData`'s reader callback on the parsed file (`None` when
        `JSON.parse` throws): each present section is stored under its key,
        and nothing else changes. */
    method ImportData(parsed: Option<ImportFile>)
      modifies this
      ensures parsed.None? ==> storage == old(storage)
      ensures parsed.Some? ==>
                forall k :: GetItem(storage, k) ==
                  (if Section(parsed.value, k).Some? then Section(parsed.value, k) else GetItem(old(storage), k))
      ensures settings == old(settings) && hasChanges == old(hasChanges)
    {
      if parsed.None? {
        return;
      }
      var f := parsed.value;
      ghost var s0 := storage;
      storage := Put(storage, SettingsKey, f.settings);
      ghost var s1 := storage;
      storage := Put(storage, TasksKey, f.tasks);
      ghost var s2 := storage;
      storage := Put(storage, NotesKey, f.notes);
      ghost var s3 := storage;
      storage := Put(storage, GoalsKey, f.goals);
      ghost var s4 := storage;
      storage := Put(storage, EventsKey, f.events);
      forall k ensures GetItem(storage, k) == (if Section(f, k).Some? then Section(f, k) else GetItem(s0, k)) {
        KeysDistinct();
        PutGet(s0, SettingsKey, f.settings, k);
        PutGet(s1, TasksKey, f.tasks, k);
        PutGet(s2, NotesKey, f.notes, k);
        PutGet(s3, GoalsKey, f.goals, k);
        PutGet(s4, EventsKey, f.events, k);
      }
    }

    /** `clearAllData` */
    method ClearAllData()
      modifies this
      ensures storage == old(storage) - ClearedKeys
      ensures settings == old(settings) && hasChanges == old(hasChanges)
    {
      storage := storage - {TasksKey};
      storage := storage - {NotesKey};
      storage := storage - {GoalsKey};
      storage := storage - {EventsKey};
    }
  }

  /** Clearing removes exactly the four list keys: the saved settings stay,
      and so do the notes the notes page keeps under "appNotes". */
  lemma ClearKeepsOthers(store: Store)
    ensures forall k :: k in ClearedKeys ==> GetItem(store - ClearedKeys, k) == None
    ensures forall k :: k !in ClearedKeys ==> GetItem(store - ClearedKeys, k) == GetItem(store, k)
    ensures GetItem(store - ClearedKeys, SettingsKey) == GetItem(store, SettingsKey)
    ensures GetItem(store - ClearedKeys, Notes.NotesKey) == GetItem(store, Notes.NotesKey)
  {
    assert SettingsKey !in ClearedKeys;
    assert Notes.NotesKey !in ClearedKeys;
  }
}
