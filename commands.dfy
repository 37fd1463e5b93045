/** Reading the arguments of the `settings` command (index.js:234-241, 265, 300). */
module Commands {
  import opened Wrappers

  datatype Command =
    | Save
    | Load(profile: Option<string>)     // None: the argument was missing or empty
    | SaveAs(profile: Option<string>)
    | Reload
    | Lock
    | Status
    | ShowHelp

  function LowerChar(c: char): (r: char)
    ensures !('A' <= r <= 'Z')
  {
    if 'A' <= c <= 'Z' then (c as int + 32) as char else c
  }

  /** toLowerCase on ASCII letters; every other character is kept. */
  function ToLower(s: string): (r: string)
    ensures |r| == |s|
    ensures forall i :: 0 <= i < |r| ==> r[i] == LowerChar(s[i])
  {
    if s == [] then [] else [LowerChar(s[0])] + ToLower(s[1..])
  }

  lemma ToLowerIsIdempotent(s: string)
    ensures ToLower(ToLower(s)) == ToLower(s)
  {
    var once := ToLower(s);
    var twice := ToLower(once);
    assert forall i :: 0 <= i < |s| ==> twice[i] == once[i];
  }

  /** A falsy argument (missing or empty) is no argument. */
  function Argument(arg: Option<string>): (r: Option<string>)
    ensures r.Some? <==> arg.Some? && arg.value != []
    ensures r.Some? ==> r == arg
  {
    if arg.Some? && arg.value != [] then arg else None
  }

  /** The subcommand selected by the first argument, compared in lower case; anything else shows the help. */
  function ParseCommand(arg1: Option<string>, arg2: Option<string>): (c: Command)
    ensures Argument(arg1).None? ==> c == ShowHelp
    ensures c.Load? || c.SaveAs? ==> c.profile == Argument(arg2)
    ensures Argument(arg1).Some? ==>
              && (ToLower(arg1.value) == "save" <==> c == Save)
              && (ToLower(arg1.value) == "load" <==> c.Load?)
              && (ToLower(arg1.value) == "saveas" <==> c.SaveAs?)
              && (ToLower(arg1.value) == "reload" <==> c == Reload)
              && (ToLower(arg1.value) == "lock" <==> c == Lock)
              && (ToLower(arg1.value) == "status" <==> c == Status)
              && (c == ShowHelp <==> ToLower(arg1.value) !in {"save", "load", "saveas", "reload", "lock", "status"})
  {
    match Argument(arg1)
    case None => ShowHelp
    case Some(word) =>
      var action := ToLower(word);
      if action == "save" then Save
      else if action == "load" then Load(Argument(arg2))
      else if action == "saveas" then SaveAs(Argument(arg2))
      else if action == "reload" then Reload
      else if action == "lock" then Lock
      else if action == "status" then Status
      else ShowHelp
  }

  /** The subcommand name is case-insensitive. */
  lemma ParseCommandIgnoresCase(word: string, arg2: Option<string>)
    ensures ParseCommand(Some(word), arg2) == ParseCommand(Some(ToLower(word)), arg2)
  {
    ToLowerIsIdempotent(word);
  }
}
