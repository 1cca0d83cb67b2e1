/** Global hotkeys (src/hotkeys.py). The keyboard library is an oracle: whether
    it can be imported, and whether creating or starting each listener raises.
    The listeners themselves are recorded by what they listen for. */
module Hotkeys {
  import opened Wrappers
  import opened Text
  import Config

  /** The special keys of the single-key table. */
  datatype Key = Esc | Space | Enter | Tab | Backspace | Delete | F(n: nat)

  /** The single-key table of `_parse_single_key` (lines 118-139). */
  const KeyMap: map<string, Key> := map[
    "escape" := Esc, "esc" := Esc, "space" := Space, "enter" := Enter, "return" := Enter,
    "tab" := Tab, "backspace" := Backspace, "delete" := Delete,
    "f1" := F(1), "f2" := F(2), "f3" := F(3), "f4" := F(4), "f5" := F(5), "f6" := F(6),
    "f7" := F(7), "f8" := F(8), "f9" := F(9), "f10" := F(10), "f11" := F(11), "f12" := F(12)]

  /** `key_map.get(name)`. */
  function KeyTable(name: string): (r: Option<Key>)
    ensures r.Some? <==> name in KeyMap
    ensures r.Some? ==> r.value == KeyMap[name]
  {
    if name in KeyMap then Some(KeyMap[name]) else None
  }

  /** Lines 115-116: one surrounding `<` `>` pair is removed, only when both
      are there. */
  function Unbracket(s: string): (r: string)
    ensures StartsWith(s, "<") && EndsWith(s, ">") ==> |s| >= 2 && r == s[1..|s| - 1]
    ensures !(StartsWith(s, "<") && EndsWith(s, ">")) ==> r == s
  {
    if StartsWith(s, "<") && EndsWith(s, ">") then
      assert s[0] == '<' && s[|s| - 1] == '>';
      s[1..|s| - 1]
    else s
  }

  /** `_parse_single_key`: lower-case, strip, remove one bracket pair, look
      the name up. Without the keyboard library the import raises and the
      result is `None`. */
  function ParseSingleKey(keyStr: string, libraryPresent: bool): (r: Option<Key>)
    ensures !libraryPresent ==> r.None?
  {
    if !libraryPresent then None
    else KeyTable(Unbracket(Strip(Lower(keyStr))))
  }

  /** A name already in normal form: non-empty lower-case letters and
      digits. */
  predicate Plain(n: string)
  {
    |n| > 0 && forall i :: 0 <= i < |n| ==> 'a' <= n[i] <= 'z' || '0' <= n[i] <= '9'
  }

  predicate NoUpper(s: string)
  {
    forall i :: 0 <= i < |s| ==> !('A' <= s[i] <= 'Z')
  }

  /** One bracket pair around a string without upper-case letters: still
      none, nothing to strip, and exactly one pair to remove. */
  lemma Wrap(m: string)
    requires NoUpper(m)
    ensures NoUpper("<" + m + ">")
    ensures Strip("<" + m + ">") == "<" + m + ">"
    ensures Unbracket("<" + m + ">") == m
  {
    var w := "<" + m + ">";
    assert NoUpper(w) by {
      assert forall i :: 1 <= i < |w| - 1 ==> w[i] == m[i - 1];
    }
    assert Unbracket(w) == m by {
      assert w[..1] == "<" && w[|w| - 1..] == ">";
      assert w[1..|w| - 1] == m;
    }
    assert w[0] == '<' && w[|w| - 1] == '>';
    StripNoSpaces(w);
  }

  /** `lower()` leaves a string without upper-case letters as it is. */
  lemma LowerFixed(s: string)
    requires NoUpper(s)
    ensures Lower(s) == s
  {
  }

  /** `lower()` changes nothing more the second time. */
  lemma LowerIdempotent(s: string)
    ensures Lower(Lower(s)) == Lower(s)
  {
  }

  /** A string is its own `strip()` when its ends are not spaces. */
  lemma StripNoSpaces(s: string)
    requires |s| > 0 && !IsSpace(s[0]) && !IsSpace(s[|s| - 1])
    ensures Strip(s) == s
  {
    assert StripLeft(s) == s;
  }

  /** The input is lower-cased first: upper and lower case name the same
      key. */
  lemma ParseIgnoresCase(s: string, libraryPresent: bool)
    ensures ParseSingleKey(Lower(s), libraryPresent) == ParseSingleKey(s, libraryPresent)
  {
    LowerIdempotent(s);
  }

  /** A name in normal form is looked up as it is. */
  lemma ParsePlain(n: string)
    requires Plain(n)
    ensures ParseSingleKey(n, true) == KeyTable(n)
  {
    LowerFixed(n);
    StripNoSpaces(n);
    assert n[0] != '<';
    assert !StartsWith(n, "<");
  }

  /** A name in normal form inside one bracket pair is looked up without
      the brackets. */
  lemma ParseBracketed(n: string)
    requires Plain(n)
    ensures ParseSingleKey("<" + n + ">", true) == KeyTable(n)
  {
    Wrap(n);
    LowerFixed("<" + n + ">");
  }

  /** `_parse_single_key` finds a key exactly under one of its names, once
      the input is lower-cased, stripped and unbracketed. */
  lemma ParseNames(keyStr: string, k: Key)
    ensures ParseSingleKey(keyStr, true) == Some(k) <==> Unbracket(Strip(Lower(keyStr))) in Names(k)
  {
    KeyTableNames(Unbracket(Strip(Lower(keyStr))), k);
  }

  /** The names under which each key appears in the table of lines
      118-139, written out key by key. */
  function Names(k: Key): set<string>
  {
    match k
    case Esc => {"esc", "escape"}
    case Space => {"space"}
    case Enter => {"enter", "return"}
    case Tab => {"tab"}
    case Backspace => {"backspace"}
    case Delete => {"delete"}
    case F(n) => if 1 <= n <= |FunctionKeyNames| then {FunctionKeyNames[n - 1]} else {}
  }

  const FunctionKeyNames: seq<string> :=
    ["f1", "f2", "f3", "f4", "f5", "f6", "f7", "f8", "f9", "f10", "f11", "f12"]

  /** The table maps a name to a key exactly when the name is one of that
      key's names: "esc" and "escape" both give escape, "enter" and
      "return" both give enter, and only F1 to F12 exist. */
  lemma KeyTableNames(name: string, k: Key)
    ensures KeyTable(name) == Some(k) <==> name in Names(k)
  {
    if k.F? {
      FunctionKeyTable(name, k.n);
    }
  }

  /** The function keys of the table are F1 to F12, under their own names. */
  lemma FunctionKeyTable(name: string, n: nat)
    ensures KeyTable(name) == Some(F(n)) <==> name in Names(F(n))
  {
    if 1 <= n <= 12 {
      assert KeyMap[FunctionKeyNames[n - 1]] == F(n);
    }
  }

  /** No name in the table begins with a bracket. */
  lemma NoBracketedNames(n: string)
    requires |n| > 0 && n[0] == '<'
    ensures n !in KeyMap
  {
  }

  lemma DoublePair(n: string)
    ensures "<" + ("<" + n + ">") + ">" == "<<" + n + ">>"
  {
  }

  /** Two bracket pairs normalise to one. */
  lemma DoubleWrap(n: string)
    requires Plain(n)
    ensures Unbracket(Strip(Lower("<<" + n + ">>"))) == "<" + n + ">"
  {
    var m := "<" + n + ">";
    Wrap(n);
    Wrap(m);
    DoublePair(n);
    LowerFixed("<" + m + ">");
  }

  /** Lines 115-116: only one bracket pair is removed, so a name inside two
      pairs is no key. */
  lemma ParseOnePairOnly(n: string)
    requires Plain(n)
    ensures ParseSingleKey("<<" + n + ">>", true).None?
  {
    DoubleWrap(n);
    NoBracketedNames("<" + n + ">");
  }

  /** Lines 115-116: a lone opening bracket is not removed, so the name
      after it is no key. */
  lemma ParseLoneBracket(n: string)
    requires Plain(n)
    ensures ParseSingleKey("<" + n, true).None?
  {
    var h := "<" + n;
    assert forall i :: 1 <= i < |h| ==> h[i] == n[i - 1];
    LowerFixed(h);
    StripNoSpaces(h);
    assert h[|h| - 1] != '>';
    NoBracketedNames(h);
  }

  /** What each registered combo triggers. */
  datatype Action = Toggle | Copy | Paste | Hide

  const CopyCombo: string := "<ctrl>+<alt>+c"
  const PasteCombo: string := "<ctrl>+<alt>+v"
  const HideCombo: string := "<ctrl>+<alt>+h"

  /** Which of the five callbacks are set. */
  datatype Callbacks = Callbacks(toggle: bool, cancel: bool, copy: bool, paste: bool, hide: bool)

  /** Lines 66-75: the combos to register, as a value. The toggle hotkey
      from the settings comes first; a fixed combo set later takes its place
      when the two are the same string. */
  function Combos(toggleHotkey: string, cbs: Callbacks): map<string, Action>
  {
    var m0: map<string, Action> := if toggleHotkey != "" && cbs.toggle then map[toggleHotkey := Toggle] else map[];
    var m1 := if cbs.copy then m0[CopyCombo := Copy] else m0;
    var m2 := if cbs.paste then m1[PasteCombo := Paste] else m1;
    if cbs.hide then m2[HideCombo := Hide] else m2
  }

  /** What is registered: each fixed combo exactly when its callback is set
      (or the toggle hotkey is that combo), the toggle hotkey when it is set
      and has a callback, and nothing else; a fixed combo always keeps its
      own action, and the toggle action is only ever on the toggle hotkey. */
  lemma CombosContents(toggleHotkey: string, cbs: Callbacks)
    ensures var m := Combos(toggleHotkey, cbs);
      && (forall k :: k in m ==> k == toggleHotkey || k == CopyCombo || k == PasteCombo || k == HideCombo)
      && (CopyCombo in m <==> cbs.copy || (cbs.toggle && toggleHotkey == CopyCombo))
      && (PasteCombo in m <==> cbs.paste || (cbs.toggle && toggleHotkey == PasteCombo))
      && (HideCombo in m <==> cbs.hide || (cbs.toggle && toggleHotkey == HideCombo))
      && (toggleHotkey in m <==> (cbs.toggle && toggleHotkey != "") || (toggleHotkey == CopyCombo && cbs.copy)
                                 || (toggleHotkey == PasteCombo && cbs.paste) || (toggleHotkey == HideCombo && cbs.hide))
      && (cbs.copy ==> m[CopyCombo] == Copy)
      && (cbs.paste ==> m[PasteCombo] == Paste)
      && (cbs.hide ==> m[HideCombo] == Hide)
      && (forall k :: k in m && m[k] == Toggle ==> k == toggleHotkey && cbs.toggle && toggleHotkey != "")
  {
  }

  /** A toggle hotkey that is none of the fixed combos keeps its action. */
  lemma ToggleRegistered(toggleHotkey: string, cbs: Callbacks)
    requires cbs.toggle && toggleHotkey != ""
    requires toggleHotkey != CopyCombo && toggleHotkey != PasteCombo && toggleHotkey != HideCombo
    ensures toggleHotkey in Combos(toggleHotkey, cbs) && Combos(toggleHotkey, cbs)[toggleHotkey] == Toggle
  {
  }

  /** A toggle hotkey equal to a fixed combo whose callback is set is
      replaced by that combo's action. */
  lemma ToggleOverridden(toggleHotkey: string, cbs: Callbacks)
    requires cbs.toggle && cbs.copy && toggleHotkey == CopyCombo
    ensures Combos(toggleHotkey, cbs)[toggleHotkey] == Copy
    ensures forall k :: k in Combos(toggleHotkey, cbs) ==> Combos(toggleHotkey, cbs)[k] != Toggle
  {
    CombosContents(toggleHotkey, cbs);
  }

  /** The dictionary of lines 66-75, built update by update. */
  method BuildHotkeys(toggleHotkey: string, cbs: Callbacks) returns (hotkeys: map<string, Action>)
    ensures hotkeys == Combos(toggleHotkey, cbs)
  {
    hotkeys := map[];
    if toggleHotkey != "" && cbs.toggle {
      hotkeys := hotkeys[toggleHotkey := Toggle];
    }
    if cbs.copy {
      hotkeys := hotkeys[CopyCombo := Copy];
    }
    if cbs.paste {
      hotkeys := hotkeys[PasteCombo := Paste];
    }
    if cbs.hide {
      hotkeys := hotkeys[HideCombo := Hide];
    }
  }

  /** Whether creating a listener, or starting the one created, raises. */
  datatype Launch = Launched | CreateFails | StartFails

  /** A listener object: what it listens for and whether it was started. */
  datatype Listener<T> = Listener(target: T, started: bool)

  /** `is_supported`: global hotkeys need X11, which is the session type
      "x11" in any case, or else no Wayland session type or socket and a
      set DISPLAY. */
  function IsSupported(env: Config.Env): (r: bool)
    ensures r <==> var session := Lower(Config.EnvGet(env, "XDG_SESSION_TYPE"));
                   || session == "x11"
                   || (session != "wayland" && Config.EnvGet(env, "WAYLAND_DISPLAY") == ""
                       && Config.EnvGet(env, "DISPLAY") != "")
  {
    Config.DisplayServer(env) == "x11"
  }

  /** `HotkeyManager`. */
  class HotkeyManager {
    /** `_display_server`, detected once at construction. */
    const displayServer: string
    /** `_hotkey_listener`: the combo listener and its combos. */
    var hotkeyListener: Option<Listener<map<string, Action>>>
    /** `_key_listener`: the cancel-key listener and its key. */
    var keyListener: Option<Listener<Key>>
    /** `_running`. */
    var running: bool
    var callbacks: Callbacks

    /** `__init__`: nothing registered, not running, no callbacks. */
    constructor (env: Config.Env)
      ensures displayServer == Config.DisplayServer(env)
      ensures hotkeyListener.None? && keyListener.None? && !running
      ensures callbacks == Callbacks(false, false, false, false, false)
    {
      displayServer := Config.DisplayServer(env);
      hotkeyListener := None;
      keyListener := None;
      running := false;
      callbacks := Callbacks(false, false, false, false, false);
    }

    /** `set_callbacks`. */
    method SetCallbacks(cbs: Callbacks)
      modifies this
      ensures callbacks == cbs
      ensures hotkeyListener == old(hotkeyListener) && keyListener == old(keyListener)
      ensures running == old(running)
    {
      callbacks := cbs;
    }

    /** `start`. `hotkeyToggle` and `hotkeyCancel` are the settings;
        `libraryPresent` whether the keyboard library imports; `combos` and
        `cancelKey` what creating and starting each listener does. A failure
        of the combo listener is logged and ignored; one of the cancel-key
        listener is caught by the outer handler and the start fails. */
    method Start(hotkeyToggle: string, hotkeyCancel: string, libraryPresent: bool,
                 combos: Launch, cancelKey: Launch) returns (ok: bool)
      modifies this
      ensures callbacks == old(callbacks)
      ensures old(running) ==> ok && running && hotkeyListener == old(hotkeyListener)
                               && keyListener == old(keyListener)
      ensures !old(running) && (displayServer != "x11" || !libraryPresent) ==>
                !ok && !running && hotkeyListener == old(hotkeyListener) && keyListener == old(keyListener)
      ensures !old(running) && displayServer == "x11" && libraryPresent ==>
                var hotkeys := Combos(hotkeyToggle, callbacks);
                var key := ParseSingleKey(hotkeyCancel, true);
                var wantsKey := hotkeyCancel != "" && callbacks.cancel && key.Some?;
                && hotkeyListener == (if |hotkeys| == 0 || combos == CreateFails then old(hotkeyListener)
                                      else Some(Listener(hotkeys, combos == Launched)))
                && keyListener == (if !wantsKey || cancelKey == CreateFails then old(keyListener)
                                   else Some(Listener(key.value, cancelKey == Launched)))
                && ok == running == (!wantsKey || cancelKey == Launched)
    {
      if running {
        return true;
      }
      if displayServer != "x11" {
        return false;
      }
      if !libraryPresent {
        return false;
      }
      var hotkeys := BuildHotkeys(hotkeyToggle, callbacks);
      RegisterCombos(hotkeys, combos);
      ok := RegisterCancelKey(hotkeyCancel, cancelKey);
      if ok {
        running := true;
      }
    }

    /** Lines 77-83: the combo listener is created when there is a combo;
        an error creating or starting it is only logged. */
    method RegisterCombos(hotkeys: map<string, Action>, combos: Launch)
      modifies this
      ensures hotkeyListener == (if |hotkeys| == 0 || combos == CreateFails then old(hotkeyListener)
                                 else Some(Listener(hotkeys, combos == Launched)))
      ensures keyListener == old(keyListener) && running == old(running) && callbacks == old(callbacks)
    {
      if |hotkeys| > 0 {
        if combos != CreateFails {
          hotkeyListener := Some(Listener(hotkeys, combos == Launched));
        }
      }
    }

    /** Lines 86-97: the cancel-key listener is created when the setting and
        the callback are there and the setting names a key; an error creating
        or starting it fails the whole start. */
    method RegisterCancelKey(hotkeyCancel: string, cancelKey: Launch) returns (ok: bool)
      modifies this
      ensures var key := ParseSingleKey(hotkeyCancel, true);
              var wantsKey := hotkeyCancel != "" && callbacks.cancel && key.Some?;
              && keyListener == (if !wantsKey || cancelKey == CreateFails then old(keyListener)
                                 else Some(Listener(key.value, cancelKey == Launched)))
              && ok == (!wantsKey || cancelKey == Launched)
      ensures hotkeyListener == old(hotkeyListener) && running == old(running) && callbacks == old(callbacks)
    {
      ok := true;
      if hotkeyCancel != "" && callbacks.cancel {
        var key := ParseSingleKey(hotkeyCancel, true);
        if key.Some? {
          if cancelKey == CreateFails {
            return false;
          }
          keyListener := Some(Listener(key.value, cancelKey == Launched));
          if cancelKey == StartFails {
            return false;
          }
        }
      }
    }

    /** `stop`: a no-op unless running; otherwise both listeners are stopped
        (errors ignored) and dropped. */
    method Stop()
      modifies this
      ensures callbacks == old(callbacks)
      ensures !old(running) ==> running == old(running) && hotkeyListener == old(hotkeyListener)
                                && keyListener == old(keyListener)
      ensures old(running) ==> !running && hotkeyListener.None? && keyListener.None?
    {
      if !running {
        return;
      }
      if hotkeyListener.Some? {
        hotkeyListener := None;
      }
      if keyListener.Some? {
        keyListener := None;
      }
      running := false;
    }

    /** `is_running`. */
    function IsRunning(): (r: bool)
      reads this
      ensures r <==> running
    {
      running
    }
  }
}
