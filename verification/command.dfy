/**
 * Slash-command parsing and dispatch (command.go): a parser that splits a
 * message text after a prefix into a lower-cased name and arguments, and a
 * process-wide registry of command handlers and middleware.
 */
module Command {

  import opened Wrappers
  import opened Errors

  /** The fields of an inbound Telegram message that the bot reads. */
  datatype Message = Message(messageId: int, text: string, caption: string, photoCount: nat)

  datatype Command = Command(name: string, arguments: seq<string>, rawText: string, message: Message)

  /** A handler or middleware: it sees the command and answers an error or nil. */
  type HandlerFunc = Command -> Option<Error>

  /** Go's `unicode.IsSpace`: Latin-1 spaces plus the Unicode White_Space code points. */
  predicate IsSpace(c: char)
    ensures c == ' ' || c == '\t' || c == '\n' || c == '\r' ==> IsSpace(c)
    ensures IsSpace(c) ==> !('!' <= c <= '~')
  {
    var n := c as int;
    n == 0x20 || 0x09 <= n <= 0x0D || n == 0x85 || n == 0xA0 || n == 0x1680
    || 0x2000 <= n <= 0x200A || n == 0x2028 || n == 0x2029 || n == 0x202F
    || n == 0x205F || n == 0x3000
  }

  predicate NoSpace(s: string)
  {
    forall i :: 0 <= i < |s| ==> !IsSpace(s[i])
  }

  predicate AllSpace(s: string)
  {
    forall i :: 0 <= i < |s| ==> IsSpace(s[i])
  }

  /** The characters of `s` that are not white space, in order. */
  function NonSpace(s: string): string
  {
    if s == [] then [] else (if IsSpace(s[0]) then [] else [s[0]]) + NonSpace(s[1..])
  }

  /** The longest prefix of `s` without white space. */
  function Word(s: string): (w: string)
    ensures |w| <= |s| && w == s[..|w|] && NoSpace(w)
    ensures |w| < |s| ==> IsSpace(s[|w|])
  {
    if s == [] || IsSpace(s[0]) then [] else [s[0]] + Word(s[1..])
  }

  /** `strings.Fields`: the maximal runs of non-space characters, in order. */
  function Fields(s: string): (r: seq<string>)
    ensures forall i :: 0 <= i < |r| ==> r[i] != [] && NoSpace(r[i])
    decreases |s|
  {
    if s == [] then []
    else if IsSpace(s[0]) then Fields(s[1..])
    else var w := Word(s); [w] + Fields(s[|w|..])
  }

  function Concat(ws: seq<string>): string
  {
    if ws == [] then [] else ws[0] + Concat(ws[1..])
  }

  /** A run of non-space characters ended by white space or the end of the text is one word. */
  lemma {:induction false} WordOfRun(w: string, rest: string)
    requires w != [] && NoSpace(w) && (rest == [] || IsSpace(rest[0]))
    ensures Word(w + rest) == w
    decreases |w|
  {
    var s := w + rest;
    assert s[0] == w[0];
    if |w| > 1 {
      assert s[1..] == w[1..] + rest;
      WordOfRun(w[1..], rest);
      assert w == [w[0]] + w[1..];
    } else {
      assert s[1..] == rest;
    }
  }

  /**
   * Fields are maximal: after leading white space, a run of non-space
   * characters that white space or the end of the text ends is the first
   * field, and the rest of the text gives the other fields.
   */
  lemma {:induction false} FieldsSplit(sp: string, w: string, rest: string)
    requires AllSpace(sp) && w != [] && NoSpace(w) && (rest == [] || IsSpace(rest[0]))
    ensures Fields(sp + w + rest) == [w] + Fields(rest)
    decreases |sp|
  {
    var s := sp + w + rest;
    if sp == [] {
      assert s == w + rest;
      WordOfRun(w, rest);
      assert s[0] == w[0];
      assert s[|w|..] == rest;
    } else {
      assert s[0] == sp[0];
      assert s[1..] == sp[1..] + w + rest;
      FieldsSplit(sp[1..], w, rest);
    }
  }

  lemma {:induction false} NonSpaceOfWord(s: string)
    ensures NonSpace(s) == Word(s) + NonSpace(s[|Word(s)|..])
    decreases |s|
  {
    if s != [] && !IsSpace(s[0]) {
      NonSpaceOfWord(s[1..]);
      assert Word(s) == [s[0]] + Word(s[1..]);
      assert NonSpace(s) == [s[0]] + NonSpace(s[1..]);
      assert s[1..][|Word(s[1..])|..] == s[|Word(s)|..];
    }
  }

  /** The fields, put back together, are exactly the non-space characters of the text. */
  lemma {:induction false} FieldsCoverText(s: string)
    ensures Concat(Fields(s)) == NonSpace(s)
    decreases |s|
  {
    if s != [] {
      if IsSpace(s[0]) {
        FieldsCoverText(s[1..]);
      } else {
        var w := Word(s);
        FieldsCoverText(s[|w|..]);
        NonSpaceOfWord(s);
        assert ([w] + Fields(s[|w|..]))[1..] == Fields(s[|w|..]);
      }
    }
  }

  /** There are no fields exactly when the text is all white space. */
  lemma {:induction false} NoFieldsIffAllSpace(s: string)
    ensures Fields(s) == [] <==> AllSpace(s)
    decreases |s|
  {
    if s != [] {
      if IsSpace(s[0]) {
        NoFieldsIffAllSpace(s[1..]);
        if AllSpace(s[1..]) {
          forall i | 0 <= i < |s| ensures IsSpace(s[i]) {
            if i > 0 { assert s[i] == s[1..][i - 1]; }
          }
        }
      }
    }
  }

  /** `strings.ToLower`, on the ASCII letters. */
  function ToLower(s: string): (r: string)
    ensures |r| == |s|
    ensures forall i :: 0 <= i < |s| ==> !('A' <= r[i] <= 'Z')
    ensures forall i :: 0 <= i < |s| && !('A' <= s[i] <= 'Z') ==> r[i] == s[i]
    ensures forall i :: 0 <= i < |s| && 'A' <= s[i] <= 'Z' ==> r[i] as int == s[i] as int + 32
  {
    if s == [] then []
    else [if 'A' <= s[0] <= 'Z' then (s[0] as int + 32) as char else s[0]] + ToLower(s[1..])
  }

  predicate HasPrefix(s: string, prefix: string)
  {
    |prefix| <= |s| && s[..|prefix|] == prefix
  }

  /** `commandParser.ParseCommand`: nil when the prefix is missing or no word follows it. */
  function ParseCommand(prefix: string, text: string, message: Message): (r: Option<Command>)
    ensures r.None? <==> !HasPrefix(text, prefix) || AllSpace(text[|prefix|..])
    ensures r.Some? ==> r.value.rawText == text && r.value.message == message
    ensures r.Some? ==> HasPrefix(text, prefix) && Fields(text[|prefix|..]) != []
    ensures r.Some? ==> [r.value.name] + r.value.arguments
                        == [ToLower(Fields(text[|prefix|..])[0])] + Fields(text[|prefix|..])[1..]
    ensures r.Some? ==> r.value.name != [] && NoSpace(r.value.name)
    ensures r.Some? ==> forall i :: 0 <= i < |r.value.name| ==> !('A' <= r.value.name[i] <= 'Z')
    ensures r.Some? ==> forall i :: 0 <= i < |r.value.arguments| ==>
                          r.value.arguments[i] != [] && NoSpace(r.value.arguments[i])
  {
    if !HasPrefix(text, prefix) then None
    else
      var parts := Fields(text[|prefix|..]);
      NoFieldsIffAllSpace(text[|prefix|..]);
      if parts == [] then None
      else Some(Command(ToLower(parts[0]), parts[1..], text, message))
  }

  /**
   * What `Command.Handler` answers for the middleware chain `ms` and the
   * handler table: the first middleware error, or else the registered
   * handler's answer, or nil when the name is not registered.
   */
  function Dispatch(ms: seq<HandlerFunc>, commands: map<string, HandlerFunc>, c: Command): (r: Option<Error>)
    ensures r.Some? ==> (exists i :: 0 <= i < |ms| && ms[i](c) == r)
                        || (c.name in commands && commands[c.name](c) == r)
    ensures r.None? ==> forall i :: 0 <= i < |ms| ==> ms[i](c).None?
  {
    if ms == [] then (if c.name in commands then commands[c.name](c) else None)
    else if ms[0](c).Some? then ms[0](c)
    else Dispatch(ms[1..], commands, c)
  }

  /** `Dispatch` stops at the first failing middleware and answers its error. */
  lemma {:induction false} DispatchFirstError(ms: seq<HandlerFunc>, commands: map<string, HandlerFunc>, c: Command, k: nat)
    requires k < |ms| && ms[k](c).Some?
    requires forall j :: 0 <= j < k ==> ms[j](c).None?
    ensures Dispatch(ms, commands, c) == ms[k](c)
    decreases k
  {
    if k > 0 {
      DispatchFirstError(ms[1..], commands, c, k - 1);
    }
  }

  /** With no failing middleware, `Dispatch` answers the registered handler's result, or nil. */
  lemma {:induction false} DispatchAllPass(ms: seq<HandlerFunc>, commands: map<string, HandlerFunc>, c: Command)
    requires forall j :: 0 <= j < |ms| ==> ms[j](c).None?
    ensures Dispatch(ms, commands, c) == if c.name in commands then commands[c.name](c) else None
    decreases |ms|
  {
    if ms != [] {
      DispatchAllPass(ms[1..], commands, c);
    }
  }

  /** The process-wide `commands` table and `middleware` chain. */
  class CommandRegistry {
    var commands: map<string, HandlerFunc>
    var middleware: seq<HandlerFunc>

    constructor ()
      ensures commands == map[] && middleware == []
    {
      commands := map[];
      middleware := [];
    }

    /** `RegisterCommandFunc`: binds `name` to `handler`, replacing an earlier binding. */
    method RegisterCommandFunc(name: string, handler: HandlerFunc)
      modifies this
      ensures commands == old(commands)[name := handler]
      ensures name in commands && commands[name] == handler
      ensures forall n :: n in old(commands) && n != name ==> n in commands && commands[n] == old(commands)[n]
      ensures middleware == old(middleware)
    {
      commands := commands[name := handler];
    }

    /** `Use`: appends middleware after the ones already installed. */
    method Use(ms: seq<HandlerFunc>)
      modifies this
      ensures middleware == old(middleware) + ms
      ensures middleware[..|old(middleware)|] == old(middleware)
      ensures commands == old(commands)
    {
      middleware := middleware + ms;
    }

    /** `Command.Handler`: runs the middleware in order, then the registered handler. */
    method Handler(c: Command) returns (err: Option<Error>)
      ensures err == Dispatch(middleware, commands, c)
    {
      var i := 0;
      while i < |middleware|
        invariant 0 <= i <= |middleware|
        invariant Dispatch(middleware, commands, c) == Dispatch(middleware[i..], commands, c)
      {
        var e := middleware[i](c);
        assert middleware[i..][1..] == middleware[i + 1..];
        if e.Some? {
          return e;
        }
        i := i + 1;
      }
      if c.name in commands {
        err := commands[c.name](c);
      } else {
        err := None;
      }
    }
  }
}
