/** Text injection (src/injector.py). Which external tools are installed is
    an input (`shutil.which`), and so is the outcome of each tool run and of
    the clipboard library; the processes themselves are not modelled. */
module Injector {
  import opened Wrappers
  import Config

  /** Which of the five tools `shutil.which` finds. */
  datatype Tools = Tools(xclip: bool, xdotool: bool, wlCopy: bool, wtype: bool, ydotool: bool)

  /** The methods `_detect_method` can choose. */
  const DetectedMethods: set<string> := {"xclip", "wl-copy", "wtype", "ydotool", "clipboard"}

  /** The method `_detect_method` settles on (lines 18-38): xclip with
      xdotool on X11, then by priority wl-copy with wtype, wtype, ydotool,
      and the clipboard when there is no tool at all. */
  function ChosenMethod(displayServer: string, tools: Tools): (r: string)
    ensures r in DetectedMethods
    ensures r == "xclip" <==> displayServer == "x11" && tools.xclip && tools.xdotool
    ensures r == "wl-copy" <==> !(displayServer == "x11" && tools.xclip && tools.xdotool)
                                 && tools.wlCopy && tools.wtype
    ensures r == "wtype" <==> !(displayServer == "x11" && tools.xclip && tools.xdotool)
                               && !tools.wlCopy && tools.wtype
    ensures r == "ydotool" <==> !(displayServer == "x11" && tools.xclip && tools.xdotool)
                                 && !tools.wtype && tools.ydotool
    ensures r == "clipboard" <==> !(displayServer == "x11" && tools.xclip && tools.xdotool)
                                   && !tools.wtype && !tools.ydotool
  {
    if displayServer == "x11" && tools.xclip && tools.xdotool then "xclip"
    else if tools.wlCopy && tools.wtype then "wl-copy"
    else if tools.wtype then "wtype"
    else if tools.ydotool then "ydotool"
    else "clipboard"
  }

  /** Off X11 the display server does not matter, and on X11 without both
      xclip and xdotool the choice is the same as elsewhere. */
  lemma ChoiceIgnoresServer(displayServer: string, other: string, tools: Tools)
    requires displayServer != "x11" || !(tools.xclip && tools.xdotool)
    requires other != "x11"
    ensures ChosenMethod(displayServer, tools) == ChosenMethod(other, tools)
  {
  }

  /** The key sender of `_inject_wl_copy` after a copy (lines 131-146):
      wtype when present, else ydotool, else none. */
  function PasteSender(tools: Tools): (r: Option<string>)
    ensures r == Some("wtype") <==> tools.wtype
    ensures r == Some("ydotool") <==> !tools.wtype && tools.ydotool
    ensures r.None? <==> !tools.wtype && !tools.ydotool
  {
    if tools.wtype then Some("wtype")
    else if tools.ydotool then Some("ydotool")
    else None
  }

  /** `_inject_wl_copy`: `copied` is whether wl-copy exited with 0, `sent`
      whether the key sender did. */
  function WlCopyInject(tools: Tools, copied: bool, sent: bool): (r: bool)
    ensures r <==> copied && PasteSender(tools).Some? && sent
    ensures !copied ==> !r
    ensures !tools.wtype && !tools.ydotool ==> !r
  {
    if !copied then false
    else match PasteSender(tools)
      case Some(_) => sent
      case None => false
  }

  /** `_inject_clipboard`: the clipboard library copies, with a message on
      either outcome; `error` is the text of the exception. */
  function ClipboardInject(copies: bool, error: string): (r: (bool, string))
    ensures r.0 <==> copies
    ensures r.0 ==> r.1 == "Text copied to clipboard (Ctrl+V to paste)"
    ensures !r.0 ==> r.1 == "Failed to copy: " + error
  {
    if copies then (true, "Text copied to clipboard (Ctrl+V to paste)")
    else (false, "Failed to copy: " + error)
  }

  /** What one tool run reports back: whether each process exited with 0
      (`copied` for the wl-copy step, `ran` for the tool that types or
      pastes) and whether the clipboard library copied, with its error. */
  datatype Runs = Runs(copied: bool, ran: bool, clipboardCopies: bool, clipboardError: string)

  /** The dispatch of lines 176-185: whether the primary method succeeded.
      An unknown or missing method, and the clipboard, are no success. */
  function Primary(m: Option<string>, tools: Tools, runs: Runs): (r: bool)
    ensures r ==> m.Some? && m.value in {"xdotool", "xclip", "wtype", "ydotool", "wl-copy"}
    ensures r && m == Some("wl-copy") ==> runs.copied && PasteSender(tools).Some? && runs.ran
    ensures r && m != Some("wl-copy") ==> runs.ran
  {
    match m
    case None => false
    case Some(name) =>
      if name in {"xdotool", "xclip", "wtype", "ydotool"} then runs.ran
      else if name == "wl-copy" then WlCopyInject(tools, runs.copied, runs.ran)
      else false
  }

  /** `TextInjector`. */
  class TextInjector {
    /** `_display_server`, detected at construction. */
    const displayServer: string
    /** `_method`, set by `_detect_method`. */
    var chosen: Option<string>

    /** `__init__`: detect the display server, then the method. */
    constructor (env: Config.Env, tools: Tools)
      ensures displayServer == Config.DisplayServer(env)
      ensures chosen == Some(ChosenMethod(displayServer, tools))
    {
      displayServer := Config.DisplayServer(env);
      chosen := None;
      new;
      DetectMethod(tools);
    }

    /** `_detect_method`. */
    method DetectMethod(tools: Tools)
      modifies this
      ensures chosen == Some(ChosenMethod(displayServer, tools))
    {
      if displayServer == "x11" {
        if tools.xclip && tools.xdotool {
          chosen := Some("xclip");
          return;
        }
      }
      if tools.wlCopy && tools.wtype {
        chosen := Some("wl-copy");
      } else if tools.wtype {
        chosen := Some("wtype");
      } else if tools.ydotool {
        chosen := Some("ydotool");
      } else {
        chosen := Some("clipboard");
      }
    }

    /** `inject`: empty text is done at once; otherwise the primary method
        runs, and when it fails, or the method is the clipboard, the
        clipboard fallback decides the result and supplies the message. */
    method Inject(text: string, tools: Tools, runs: Runs) returns (success: bool, message: Option<string>)
      ensures text == "" ==> success && message.None?
      ensures text != "" && (chosen == Some("clipboard") || !Primary(chosen, tools, runs)) ==>
                var (ok, msg) := ClipboardInject(runs.clipboardCopies, runs.clipboardError);
                success == ok && message == Some(msg)
      ensures text != "" && chosen != Some("clipboard") && Primary(chosen, tools, runs) ==>
                success && message.None?
    {
      if text == "" {
        return true, None;
      }
      success := false;
      message := None;
      if chosen == Some("xdotool") {
        success := runs.ran;
      } else if chosen == Some("xclip") {
        success := runs.ran;
      } else if chosen == Some("wtype") {
        success := runs.ran;
      } else if chosen == Some("ydotool") {
        success := runs.ran;
      } else if chosen == Some("wl-copy") {
        success := WlCopyInject(tools, runs.copied, runs.ran);
      }
      if !success || chosen == Some("clipboard") {
        var (ok, msg) := ClipboardInject(runs.clipboardCopies, runs.clipboardError);
        success, message := ok, Some(msg);
      }
    }

    /** The `method` property: the method's name, or "none" before one is
        set. */
    function MethodName(): (r: string)
      reads this
      ensures chosen.None? ==> r == "none"
      ensures chosen.Some? && chosen.value != "" ==> r == chosen.value
    {
      match chosen
      case None => "none"
      case Some(name) => if name == "" then "none" else name
    }
  }
}
