/** CommandParamsToSettingsSaver: how a console argument or option reaches its SettingsRun
    setter. The setter is picked by name at run time; here each call is recorded as a
    (setter name, value) pair. */
module CommandParams {
  import opened Basics
  import opened Strings
  import TextHelper

  /** A console value: null (the option was not given), a bool produced by the
      normalisation, a string, or the list an array option collects. */
  datatype Value = Null | Flag(b: bool) | Text(s: string) | List(items: seq<string>)

  /** One call of a settings setter. */
  datatype SetterCall = SetterCall(setter: string, value: Value)

  function UpperChar(c: char): char {
    if 'a' <= c <= 'z' then (c as int - 32) as char else c
  }

  /** `ucfirst`. */
  function UpperFirst(s: string): (r: string)
    ensures |r| == |s| && (s != [] ==> r[1..] == s[1..])
    ensures s != [] ==> r[0] == UpperChar(s[0])
  {
    if s == [] then [] else [UpperChar(s[0])] + s[1..]
  }

  /** nameToSettingsSetter: "set" followed by the camel-case form of the option name with
      its first letter raised. The snake-to-camel converter is Symfony's and is a parameter. */
  function SetterName(denormalize: string -> string, name: string): (r: string)
    ensures StartsWith(r, "set") && r[3..] == UpperFirst(denormalize(name))
  {
    "set" + UpperFirst(denormalize(name))
  }

  /** The three spellings of an empty list a shell can leave in a single-element option. */
  predicate IsEmptyListMarker(s: string) {
    s == "'[]'" || s == "\"[]\"" || s == "[]"
  }

  /** The bool a string option stands for: its trimmed, lower-cased form is 'true' or 'false'. */
  function BoolWord(s: string): Option<bool> {
    var w := Lower(TextHelper.Trim(s));
    if w == "true" then Some(true) else if w == "false" then Some(false) else None
  }

  /** What overrideSettings hands to the setter, or None when it calls no setter. */
  function Normalized(v: Value): Option<Value> {
    match v
    case Null => None
    case List(items) =>
      if items == [] then None
      else if |items| == 1 && IsEmptyListMarker(items[0]) then Some(List([]))
      else Some(v)
    case Text(s) => (if BoolWord(s).Some? then Some(Flag(BoolWord(s).value)) else Some(v))
    case Flag(_) => Some(v)
  }

  /** The calls one overrideSettings makes. */
  function OverrideCalls(denormalize: string -> string, option: string, v: Value): seq<SetterCall> {
    match Normalized(v)
    case None => []
    case Some(w) => [SetterCall(SetterName(denormalize, option), w)]
  }

  /** The part of a command that saves console input into the settings: the setter calls
      made so far, in order. */
  class Saver {
    var calls: seq<SetterCall>
    const denormalize: string -> string

    constructor(denormalize: string -> string)
      ensures calls == [] && this.denormalize == denormalize
    {
      calls := [];
      this.denormalize := denormalize;
    }

    /** saveArgument: the argument's value goes to its setter as it is. */
    method SaveArgument(argument: string, value: Value)
      modifies this
      ensures calls == old(calls) + [SetterCall(SetterName(denormalize, argument), value)]
    {
      var setter := SetterName(denormalize, argument);
      calls := calls + [SetterCall(setter, value)];
    }

    /** overrideSettings: an option that was given reaches its setter after normalisation. */
    method OverrideSettings(option: string, value: Value)
      modifies this
      ensures calls == old(calls) + OverrideCalls(denormalize, option, value)
    {
      var v := value;
      if v.Null? {
        return;
      }
      if v.List? && v.items == [] {
        return;
      }
      if v.List? && |v.items| == 1 {
        if IsEmptyListMarker(v.items[0]) {
          v := List([]);
        }
      }
      if v.Text? {
        var trimmedValue := Lower(TextHelper.Trim(v.s));
        if trimmedValue == "true" {
          v := Flag(true);
        } else if trimmedValue == "false" {
          v := Flag(false);
        }
      }
      var setter := SetterName(denormalize, option);
      calls := calls + [SetterCall(setter, v)];
    }
  }

  /** No setter is called exactly for a missing option and for an empty list. */
  lemma NoCallIffAbsent(v: Value)
    ensures Normalized(v).None? <==> v == Null || v == List([])
  {
  }

  /** A single empty-list marker becomes an empty list; every other non-empty list, however
      it looks, is passed on unchanged. */
  lemma ListsNormalized(items: seq<string>)
    ensures |items| == 1 && IsEmptyListMarker(items[0]) ==> Normalized(List(items)) == Some(List([]))
    ensures items != [] && !(|items| == 1 && IsEmptyListMarker(items[0]))
      ==> Normalized(List(items)) == Some(List(items))
  {
  }

  /** A string becomes a bool exactly when its trimmed lower-case form is 'true' or 'false';
      any other string is passed on untrimmed. */
  lemma StringsNormalized(s: string)
    ensures Normalized(Text(s)) == Some(Flag(true)) <==> Lower(TextHelper.Trim(s)) == "true"
    ensures Normalized(Text(s)) == Some(Flag(false)) <==> Lower(TextHelper.Trim(s)) == "false"
    ensures Lower(TextHelper.Trim(s)) != "true" && Lower(TextHelper.Trim(s)) != "false"
      ==> Normalized(Text(s)) == Some(Text(s))
  {
  }

  /** Normalising again changes nothing, except that the empty list the markers turn into
      would then call no setter. */
  lemma NormalizedStable(v: Value)
    requires Normalized(v).Some? && Normalized(v).value != List([])
    ensures Normalized(Normalized(v).value) == Normalized(v)
  {
  }

  /** Each override makes at most one call, and it is to the option's own setter. */
  lemma OverrideCallsShape(denormalize: string -> string, option: string, v: Value)
    ensures |OverrideCalls(denormalize, option, v)| == (if Normalized(v).Some? then 1 else 0)
    ensures forall c :: c in OverrideCalls(denormalize, option, v) ==>
              c.setter == SetterName(denormalize, option) && Some(c.value) == Normalized(v)
  {
  }
}
