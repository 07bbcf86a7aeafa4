/**
 * Commands as clients type them: which words mean which command, with which arguments. The words
 * are spelled out here, and may be in any case.
 */
module CommandText {
  import opened Bytes
  import opened Resp
  import opened Commands
  import Decimal
  import Utf8

  /** Letter for letter the same word, in capitals or not. */
  predicate Spells(word: bytes, name: string) {
    |word| == |name|
    && forall i :: 0 <= i < |word| ==> word[i] == name[i] as int || word[i] == name[i] as int + 32
  }

  /** The same word in capitals, as bytes. */
  predicate Capitals(name: string, capitals: bytes) {
    |name| == |capitals|
    && forall i :: 0 <= i < |name| ==> 65 <= name[i] as int <= 90 && capitals[i] == name[i] as int
  }

  /** A command line as clients send it: an array of bulk strings. */
  function Typed(words: seq<bytes>): (frame: RespValue)
    ensures frame.Array? && |frame.items| == |words|
  {
    Array(seq(|words|, i requires 0 <= i < |words| => BulkString(Some(words[i]))))
  }

  lemma UpperSpells(word: bytes, name: string, capitals: bytes)
    requires Capitals(name, capitals)
    ensures Upper(word) == capitals <==> Spells(word, name)
  {
    if Upper(word) == capitals {
      forall i | 0 <= i < |word| ensures word[i] == name[i] as int || word[i] == name[i] as int + 32 {
        assert Upper(word)[i] == UpperByte(word[i]) == capitals[i];
      }
    }
    if Spells(word, name) {
      assert forall i :: 0 <= i < |word| ==> Upper(word)[i] == UpperByte(word[i]) == capitals[i];
    }
  }

  lemma LineParts(words: seq<bytes>)
    requires words != []
    ensures Typed(words).items[0] == BulkString(Some(words[0]))
    ensures Typed(words).items[1..] == Typed(words[1..]).items
  {
  }

  lemma {:induction false} ExtractLine(words: seq<bytes>)
    ensures ExtractAll(Typed(words).items) == Some(words)
  {
    if words != [] {
      LineParts(words);
      ExtractLine(words[1..]);
      assert words == [words[0]] + words[1..];
    }
  }

  /** The commands this model parses, by their words. */
  predicate Known(word: bytes) {
    Spells(word, "GET") || Spells(word, "SET") || Spells(word, "PING") || Spells(word, "AUTH")
    || Spells(word, "QUIT") || Spells(word, "MULTI") || Spells(word, "EXEC") || Spells(word, "DISCARD")
    || Spells(word, "WATCH") || Spells(word, "UNWATCH")
  }

  lemma WordIs(word: bytes)
    ensures Upper(word) == GET <==> Spells(word, "GET")
    ensures Upper(word) == SET <==> Spells(word, "SET")
    ensures Upper(word) == PING <==> Spells(word, "PING")
    ensures Upper(word) == AUTH <==> Spells(word, "AUTH")
    ensures Upper(word) == QUIT <==> Spells(word, "QUIT")
    ensures Upper(word) == MULTI <==> Spells(word, "MULTI")
    ensures Upper(word) == EXEC <==> Spells(word, "EXEC")
    ensures Upper(word) == DISCARD <==> Spells(word, "DISCARD")
    ensures Upper(word) == WATCH <==> Spells(word, "WATCH")
    ensures Upper(word) == UNWATCH <==> Spells(word, "UNWATCH")
  {
    hide Upper, Spells;
    UpperSpells(word, "GET", GET);
    UpperSpells(word, "SET", SET);
    UpperSpells(word, "PING", PING);
    UpperSpells(word, "AUTH", AUTH);
    UpperSpells(word, "QUIT", QUIT);
    UpperSpells(word, "MULTI", MULTI);
    UpperSpells(word, "EXEC", EXEC);
    UpperSpells(word, "DISCARD", DISCARD);
    UpperSpells(word, "WATCH", WATCH);
    UpperSpells(word, "UNWATCH", UNWATCH);
  }

  lemma ParsesAs(engine: Engine, words: seq<bytes>)
    requires words != []
    ensures var word, args := words[0], Typed(words[1..]).items;
      ParseCommand(engine, Typed(words))
      == if Upper(word) == GET then ParseGet(args)
         else if Upper(word) == SET then ParseSet(args)
         else if Upper(word) == PING then ParsePing(args)
         else if Upper(word) == AUTH then ParseAuth(args)
         else if Upper(word) == QUIT then Some(Quit)
         else if Upper(word) == MULTI then Bare(args, Multi)
         else if Upper(word) == EXEC then Bare(args, Exec)
         else if Upper(word) == DISCARD then Bare(args, Discard)
         else if Upper(word) == WATCH then ParseWatch(args)
         else if Upper(word) == UNWATCH then Bare(args, Unwatch)
         else OfEngine(engine.parse(Upper(word), args))
  {
    LineParts(words);
    hide Upper, Typed, ParseGet, ParseSet, ParsePing, ParseAuth, ParseWatch, Bare;
  }

  function OfEngine(c: Option<Command>): Option<Command> {
    if c.Some? && (c.value.PubSub? || c.value.Other?) then c else None
  }

  // ---- Commands and their arguments. ----

  function NoArguments(args: seq<bytes>, cmd: Command): Option<Command> {
    if args == [] then Some(cmd) else None
  }

  /**
   * What a line of words is: `None` is no command, which ends the connection. SET with options is
   * `SetOptionsAre`; every other word, in capitals, is left to the rest of the server.
   */
  lemma LineMeans(engine: Engine, word: bytes, args: seq<bytes>)
    ensures var cmd := ParseCommand(engine, Typed([word] + args));
      (Spells(word, "MULTI") ==> cmd == NoArguments(args, Multi))
      && (Spells(word, "EXEC") ==> cmd == NoArguments(args, Exec))
      && (Spells(word, "DISCARD") ==> cmd == NoArguments(args, Discard))
      && (Spells(word, "UNWATCH") ==> cmd == NoArguments(args, Unwatch))
      && (Spells(word, "QUIT") ==> cmd == Some(Quit))
      && (Spells(word, "WATCH") ==> cmd == if args == [] then None else Some(WatchKeys(args)))
      && (Spells(word, "AUTH") ==> cmd == if |args| == 1 then Some(Auth(args[0])) else None)
      && (Spells(word, "PING") ==> cmd == if args == [] then Some(Ping(None)) else Some(Ping(Some(args[0]))))
      && (Spells(word, "GET") ==> cmd == if |args| == 1 then Some(Get(args[0])) else None)
      && (Spells(word, "SET") && |args| < 2 ==> cmd == None)
      && (Spells(word, "SET") && |args| == 2 ==> cmd == Some(Set(args[0], args[1], None, None)))
  {
    hide ParseCommand, Upper, Spells, Typed, ParseGet, ParseAuth, ParsePing, ParseWatch, ParseSet, Bare;
    var words := [word] + args;
    assert words[1..] == args;
    ParsesAs(engine, words);
    WordIs(word);
    WordsDiffer();
    LineArguments(args);
  }

  lemma WordsDiffer()
    ensures GET != SET && GET[0] != PING[0] && |MULTI| == |WATCH| && MULTI[0] != WATCH[0]
    ensures PING[0] != AUTH[0] && PING[0] != QUIT[0] && PING[0] != EXEC[0]
    ensures AUTH[0] != QUIT[0] && AUTH[0] != EXEC[0] && QUIT[0] != EXEC[0]
    ensures DISCARD[0] != UNWATCH[0]
  {
  }

  /** How the argument parsers read words. */
  lemma LineArguments(args: seq<bytes>)
    ensures var items := Typed(args).items;
      ParseGet(items) == (if |args| == 1 then Some(Get(args[0])) else None)
      && ParseAuth(items) == (if |args| == 1 then Some(Auth(args[0])) else None)
      && ParsePing(items) == (if args == [] then Some(Ping(None)) else Some(Ping(Some(args[0]))))
      && ParseWatch(items) == (if args == [] then None else Some(WatchKeys(args)))
      && (forall cmd: Command :: Bare(items, cmd) == NoArguments(args, cmd))
      && (|args| < 2 ==> ParseSet(items) == None)
      && (|args| == 2 ==> ParseSet(items) == Some(Set(args[0], args[1], None, None)))
  {
    hide ExtractAll;
    ExtractLine(args);
  }

  /** A word that is none of these goes to the rest of the server, in capitals, with its arguments. */
  lemma OtherWords(engine: Engine, word: bytes, args: seq<bytes>) returns (name: bytes)
    requires !Known(word)
    ensures |name| == |word|
    ensures forall i :: 0 <= i < |word| ==> name[i] == if 97 <= word[i] <= 122 then word[i] - 32 else word[i]
    ensures ParseCommand(engine, Typed([word] + args)) == OfEngine(engine.parse(name, Typed(args).items))
  {
    var words := [word] + args;
    assert words[1..] == args;
    ParsesAs(engine, words);
    WordIs(word);
    name := Upper(word);
    assert forall i :: 0 <= i < |word| ==> name[i] == UpperByte(word[i]);
  }

  /** What is no array of at least one item, the first of them a bulk string, is no command. */
  lemma NoCommand(engine: Engine, frame: RespValue)
    requires frame.Array? ==> frame.items == [] || !frame.items[0].BulkString? || frame.items[0].data.None?
    ensures ParseCommand(engine, frame) == None
  {
  }

  /** An argument may also be a simple string, and the amount of an option a number; nothing else is one. */
  lemma ArgumentKinds(engine: Engine, get: bytes, set_: bytes, option: bytes, key: bytes, value: bytes,
                      v: RespValue, n: int)
    requires Spells(get, "GET") && Spells(set_, "SET") && Spells(option, "EX")
    ensures ParseCommand(engine, Array([BulkString(Some(get)), v]))
      == match v
         case BulkString(Some(k)) => Some(Get(k))
         case SimpleString(k) => Some(Get(k))
         case _ => None
    ensures ParseCommand(engine, Array([BulkString(Some(set_)), BulkString(Some(key)), BulkString(Some(value)),
                                        BulkString(Some(option)), Integer(n)]))
      == Some(Set(key, value, Some(n % 18446744073709551616), None))
  {
    hide Upper, Spells;
    WordIs(get);
    WordIs(set_);
    OptionWord(option);
    var frame := Array([BulkString(Some(get)), v]);
    assert frame.items[1..] == [v];
    SetWithExpiry(engine, set_, key, value, option, Integer(n), n);
  }

  // ---- The options of SET. ----

  /** An option: seconds or milliseconds, or a word that means neither and is skipped. */
  datatype Choice = Seconds(word: bytes, n: int) | Millis(word: bytes, n: int) | Skipped(word: bytes)

  predicate ChoiceOk(c: Choice) {
    match c
    case Seconds(word, n) => Spells(word, "EX") && Decimal.IsI64(n)
    case Millis(word, n) => Spells(word, "PX") && Decimal.IsI64(n)
    case Skipped(word) => !Spells(word, "EX") && !Spells(word, "PX")
  }

  function ChoiceText(c: Choice): seq<bytes> {
    if c.Skipped? then [c.word] else [c.word, Decimal.Print(c.n)]
  }

  function ChoicesText(cs: seq<Choice>): seq<bytes> {
    if cs == [] then [] else ChoiceText(cs[0]) + ChoicesText(cs[1..])
  }

  /** The last amount given; negative ones wrap around at 64 bits. */
  function LastOf(cs: seq<Choice>, seconds: bool, before: Option<nat>): Option<nat> {
    if cs == [] then before
    else
      var now := if cs[0].Skipped? || cs[0].Seconds? != seconds then before else Some(cs[0].n % 18446744073709551616);
      LastOf(cs[1..], seconds, now)
  }

  lemma AmountText(n: int)
    requires Decimal.IsI64(n)
    ensures ExtractInteger(BulkString(Some(Decimal.Print(n)))) == Some(n)
  {
    Decimal.ParsePrint(n);
    Decimal.ParsedIsAscii(Decimal.Print(n));
    Utf8.AsciiIsValid(Decimal.Print(n));
  }

  lemma OptionWord(word: bytes)
    ensures Upper(word) == EX <==> Spells(word, "EX")
    ensures Upper(word) == PX <==> Spells(word, "PX")
    ensures EX != PX
  {
    UpperSpells(word, "EX", EX);
    UpperSpells(word, "PX", PX);
    assert EX[0] == 69 && PX[0] == 80;
  }

  lemma OneChoice(args: seq<RespValue>, i: nat, c: Choice, ex: Option<nat>, px: Option<nat>)
    requires ChoiceOk(c) && i <= |args| && Typed(ChoiceText(c)).items <= args[i..]
    ensures SetOptions(args, i, ex, px)
      == SetOptions(args, i + |ChoiceText(c)|, LastOf([c], true, ex), LastOf([c], false, px))
  {
    hide Upper, Spells, Decimal.Print, ExtractInteger;
    var items := Typed(ChoiceText(c)).items;
    assert forall k {:trigger items[k]} :: 0 <= k < |items| ==> args[i + k] == items[k];
    assert args[i] == items[0] == BulkString(Some(c.word));
    OptionWord(c.word);
    assert [c][1..] == [];
    if !c.Skipped? {
      assert args[i + 1] == items[1] == BulkString(Some(Decimal.Print(c.n)));
      AmountText(c.n);
    }
  }

  lemma {:induction false} OptionsAre(args: seq<RespValue>, i: nat, cs: seq<Choice>, ex: Option<nat>, px: Option<nat>)
    requires (forall k :: 0 <= k < |cs| ==> ChoiceOk(cs[k])) && i <= |args|
    requires args[i..] == Typed(ChoicesText(cs)).items
    ensures SetOptions(args, i, ex, px) == Some((LastOf(cs, true, ex), LastOf(cs, false, px)))
    decreases |cs|
  {
    hide ChoiceOk, ChoiceText, SetOptions, Typed;
    if cs == [] {
      OptionsEnd(args, i, ex, px);
    } else {
      var first, rest := ChoiceText(cs[0]), ChoicesText(cs[1..]);
      LineConcat(first, rest);
      LastInTwo(cs, true, ex);
      LastInTwo(cs, false, px);
      OneChoice(args, i, cs[0], ex, px);
      assert args[i + |first|..] == args[i..][|first|..] == Typed(rest).items;
      OptionsAre(args, i + |first|, cs[1..], LastOf([cs[0]], true, ex), LastOf([cs[0]], false, px));
    }
  }

  lemma OptionsEnd(args: seq<RespValue>, i: nat, ex: Option<nat>, px: Option<nat>)
    requires i <= |args| && args[i..] == Typed([]).items
    ensures SetOptions(args, i, ex, px) == Some((ex, px))
  {
  }

  lemma LineConcat(a: seq<bytes>, b: seq<bytes>)
    ensures Typed(a + b).items == Typed(a).items + Typed(b).items && |Typed(a).items| == |a|
  {
  }

  lemma LastInTwo(cs: seq<Choice>, seconds: bool, before: Option<nat>)
    requires cs != []
    ensures LastOf(cs, seconds, before) == LastOf(cs[1..], seconds, LastOf([cs[0]], seconds, before))
  {
    assert [cs[0]][1..] == [];
  }

  lemma SetParses(args: seq<RespValue>, key: bytes, value: bytes)
    requires |args| >= 2 && args[0] == BulkString(Some(key)) && args[1] == BulkString(Some(value))
    ensures var options := SetOptions(args, 2, None, None);
      ParseSet(args)
      == if options.None? then None else Some(Set(key, value, options.value.0, options.value.1))
  {
    hide SetOptions;
  }

  lemma LineTail(a: bytes, b: bytes, rest: seq<bytes>)
    ensures var items := Typed([a, b] + rest).items;
      |items| >= 2 && items[0] == BulkString(Some(a)) && items[1] == BulkString(Some(b))
      && items[2..] == Typed(rest).items
  {
  }

  lemma SetLine(engine: Engine, word: bytes, args: seq<bytes>)
    requires Spells(word, "SET")
    ensures ParseCommand(engine, Typed([word] + args)) == ParseSet(Typed(args).items)
  {
    hide ParseCommand, Upper, Spells, Typed, ParseSet;
    assert ([word] + args)[1..] == args;
    ParsesAs(engine, [word] + args);
    WordIs(word);
    WordsDiffer();
  }

  /** SET with any options: the last EX and the last PX count, other words are skipped. */
  lemma SetOptionsAre(engine: Engine, word: bytes, key: bytes, value: bytes, cs: seq<Choice>)
    requires Spells(word, "SET") && forall k :: 0 <= k < |cs| ==> ChoiceOk(cs[k])
    ensures ParseCommand(engine, Typed([word] + ([key, value] + ChoicesText(cs))))
      == Some(Set(key, value, LastOf(cs, true, None), LastOf(cs, false, None)))
  {
    hide *;
    var args := [key, value] + ChoicesText(cs);
    SetLine(engine, word, args);
    LineTail(key, value, ChoicesText(cs));
    SetParses(Typed(args).items, key, value);
    OptionsAre(Typed(args).items, 2, cs, None, None);
  }
}
