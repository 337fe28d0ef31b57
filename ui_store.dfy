/** The MobX `UIStore`: sidebar, modal, notifications and theme, with the theme mirrored to storage. */
module MobxUIStore {
  import opened Wrappers
  import opened JsValues
  import Sequences

  datatype NotificationType = Success | Error | Warning | Info

  datatype Notification = Notification(
    id: string,
    message: string,
    kind: NotificationType,
    autoRemove: Option<bool>,
    duration: Option<int>,
    timestamp: int)

  /** The notice a store posts after a successful mutation: auto-removed, default duration. */
  function SuccessNotice(id: string, message: string, timestamp: int): (n: Notification)
    ensures n.kind == Success && n.autoRemove == Some(true) && n.duration == None
    ensures n.id == id && n.message == message && n.timestamp == timestamp
  {
    Notification(id, message, Success, Some(true), None, timestamp)
  }

  /** The storage key of the theme. */
  const DarkModeKey := "darkMode"

  /** `String(b)`. */
  function BoolText(b: bool): string
  {
    if b then "true" else "false"
  }

  /**
   * The theme `loadThemePreference` settles on: a saved value means dark
   * exactly when it is "true"; with nothing saved, the system preference.
   */
  function ThemeFrom(storage: map<string, string>, prefersDark: bool): (dark: bool)
    ensures DarkModeKey in storage ==> (dark <==> storage[DarkModeKey] == "true")
    ensures DarkModeKey !in storage ==> dark == prefersDark
  {
    if DarkModeKey in storage then storage[DarkModeKey] == "true" else prefersDark
  }

  /** What `saveThemePreference` writes is what `loadThemePreference` reads back, whatever the system prefers. */
  lemma SavedThemeRoundTrip(storage: map<string, string>, dark: bool, prefersDark: bool)
    ensures ThemeFrom(storage[DarkModeKey := BoolText(dark)], prefersDark) == dark
  {
  }

  /** `notifications.filter(n => n.id !== id)`. */
  function WithoutNotification(s: seq<Notification>, id: string): (r: seq<Notification>)
    ensures forall i :: 0 <= i < |r| ==> r[i] in s && r[i].id != id
    ensures forall i :: 0 <= i < |s| && s[i].id != id ==> s[i] in r
    ensures Sequences.IsSubsequence(r, s)
    ensures forall n :: multiset(r)[n] == if n.id != id then multiset(s)[n] else 0
  {
    Sequences.FilterIsSubsequence(s, (n: Notification) => n.id != id);
    forall n {
      Sequences.FilterMultiset(s, (n: Notification) => n.id != id, n);
    }
    Sequences.Filter(s, (n: Notification) => n.id != id)
  }

  class UIStore {
    var isLoading: bool
    var isSidebarOpen: bool
    var activeModal: Option<string>
    var modalData: JsValue
    var notifications: seq<Notification>
    var isDarkMode: bool
    /** `localStorage`, as text under keys. */
    var storage: map<string, string>

    /** The store in a browser: defaults, then the theme loaded from storage. */
    constructor (storage: map<string, string>, prefersDark: bool)
      ensures !isLoading && isSidebarOpen && activeModal == None && modalData == Null
      ensures notifications == []
      ensures this.storage == storage
      ensures isDarkMode == ThemeFrom(storage, prefersDark)
    {
      isLoading := false;
      isSidebarOpen := true;
      activeModal := None;
      modalData := Null;
      notifications := [];
      this.storage := storage;
      isDarkMode := ThemeFrom(storage, prefersDark);
    }

    method SetLoading(loading: bool)
      modifies this`isLoading
      ensures isLoading == loading
    {
      isLoading := loading;
    }

    /** Flips the sidebar; two toggles restore it. */
    method ToggleSidebar()
      modifies this`isSidebarOpen
      ensures isSidebarOpen == !old(isSidebarOpen)
    {
      isSidebarOpen := !isSidebarOpen;
    }

    method SetSidebarOpen(isOpen: bool)
      modifies this`isSidebarOpen
      ensures isSidebarOpen == isOpen
    {
      isSidebarOpen := isOpen;
    }

    /** `openModal(name, data = null)`: an omitted (`undefined`) argument stores `null`. */
    method OpenModal(name: string, data: JsValue)
      modifies this`activeModal, this`modalData
      ensures activeModal == Some(name)
      ensures modalData == if data == Undefined then Null else data
    {
      activeModal := Some(name);
      modalData := if data == Undefined then Null else data;
    }

    method CloseModal()
      modifies this`activeModal, this`modalData
      ensures activeModal == None && modalData == Null
    {
      activeModal := None;
      modalData := Null;
    }

    /** Appends at the end; the earlier notifications stay as they were. */
    method AddNotification(n: Notification)
      modifies this`notifications
      ensures notifications == old(notifications) + [n]
    {
      notifications := notifications + [n];
    }

    /** Drops every notification with the id and keeps the rest in order. */
    method RemoveNotification(id: string)
      modifies this`notifications
      ensures notifications == WithoutNotification(old(notifications), id)
    {
      notifications := WithoutNotification(notifications, id);
    }

    method ClearAllNotifications()
      modifies this`notifications
      ensures notifications == []
    {
      notifications := [];
    }

    /** `saveThemePreference()`. */
    method SaveThemePreference()
      modifies this`storage
      ensures storage == old(storage)[DarkModeKey := BoolText(isDarkMode)]
    {
      storage := storage[DarkModeKey := BoolText(isDarkMode)];
    }

    /** `loadThemePreference()`, given what `matchMedia` reports. */
    method LoadThemePreference(prefersDark: bool)
      modifies this`isDarkMode
      ensures isDarkMode == ThemeFrom(storage, prefersDark)
    {
      isDarkMode := ThemeFrom(storage, prefersDark);
    }

    method ToggleTheme()
      modifies this`isDarkMode, this`storage
      ensures isDarkMode == !old(isDarkMode)
      ensures storage == old(storage)[DarkModeKey := BoolText(isDarkMode)]
    {
      isDarkMode := !isDarkMode;
      SaveThemePreference();
    }

    method SetDarkMode(isDark: bool)
      modifies this`isDarkMode, this`storage
      ensures isDarkMode == isDark
      ensures storage == old(storage)[DarkModeKey := BoolText(isDark)]
    {
      isDarkMode := isDark;
      SaveThemePreference();
    }
  }
}
