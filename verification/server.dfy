/**
 * The message handler of the current bot (`packages/discord-bot/src/server.ts`):
 * which messages are read as commands, how the prefix is stripped and the
 * rest cut into a command name and its arguments, and what happens to the
 * command.
 *
 * The guild's custom prefix is the prefix collection's entry for the guild
 * (`None` when it has none). The loaded commands are a set of names, and
 * whether a command's `execute` throws is a parameter.
 */
module Server {
  import opened Wrappers
  import opened Text

  /** What the handler does with a message. */
  datatype Handled =
    | Ignored                                   // no accepted prefix, or a bot's message
    | Crashed                                   // the handler throws before reading a command
    | UnknownCommand(name: string)              // no such command: nothing happens
    | Executed(name: string, args: seq<string>)
    | ExecutionFailed(name: string)             // `execute` threw: the error reply is sent

  /** `s.slice(n)`. */
  function Slice(s: string, n: nat): (r: string)
    ensures n <= |s| ==> r == s[n..]
    ensures n > |s| ==> r == ""
  {
    if n <= |s| then s[n..] else ""
  }

  /**
   * What `text.startsWith(customPrefix!)` compares against: the custom
   * prefix, or, when there is none, `undefined` converted to a string.
   */
  function CustomPrefixText(customPrefix: Option<string>): string {
    customPrefix.GetOr("undefined")
  }

  /** The acceptance test: a prefix the guild accepts, and an author who is not a bot. */
  predicate Accepted(text: string, fromBot: bool, customPrefix: Option<string>, defaultPrefix: string) {
    !((customPrefix.None? && !StartsWith(text, defaultPrefix))
      || (customPrefix.Some? && !StartsWith(text, defaultPrefix) && !StartsWith(text, customPrefix.value))
      || fromBot)
  }

  /** `text.trim().slice(n).trim().split(/ +/)`. */
  function Words(text: string, n: nat): (r: seq<string>)
    ensures |r| >= 1
  {
    SplitSpaces(Trim(Slice(Trim(text), n)))
  }

  /**
   * The tokens of an accepted message: the custom prefix is stripped when the
   * text starts with it, the default prefix otherwise. With no custom prefix,
   * a text starting with `undefined` reads the length of `undefined` and
   * throws (`None`).
   */
  function Tokens(text: string, customPrefix: Option<string>, defaultPrefix: string): (r: Option<seq<string>>)
    ensures r.None? <==> customPrefix.None? && StartsWith(text, "undefined")
    ensures r.Some? ==> |r.value| >= 1
  {
    if StartsWith(text, CustomPrefixText(customPrefix)) then
      if customPrefix.None? then None else Some(Words(text, |customPrefix.value|))
    else Some(Words(text, |defaultPrefix|))
  }

  /** The handler: accept, tokenise, look the lower-cased first token up, run it. */
  function Handle(text: string, fromBot: bool, customPrefix: Option<string>, defaultPrefix: string,
                  commands: set<string>, throws: (string, seq<string>) -> bool): (h: Handled)
    ensures h == Ignored <==> !Accepted(text, fromBot, customPrefix, defaultPrefix)
    ensures h == Crashed <==>
      Accepted(text, fromBot, customPrefix, defaultPrefix) && customPrefix.None? && StartsWith(text, "undefined")
    ensures !h.Ignored? && !h.Crashed? ==>
      var words := Tokens(text, customPrefix, defaultPrefix).value;
      var name := ToLower(words[0]);
      (h == UnknownCommand(name) <==> name !in commands) &&
      (h == Executed(name, words[1..]) <==> name in commands && !throws(name, words[1..])) &&
      (h == ExecutionFailed(name) <==> name in commands && throws(name, words[1..]))
  {
    if !Accepted(text, fromBot, customPrefix, defaultPrefix) then Ignored
    else match Tokens(text, customPrefix, defaultPrefix)
      case None => Crashed
      case Some(args) =>
        var command := ToLower(args[0]);
        if command !in commands then UnknownCommand(command)
        else if throws(command, args[1..]) then ExecutionFailed(command)
        else Executed(command, args[1..])
  }

  /** Words that neither contain white space nor are empty. */
  predicate PlainWords(words: seq<string>) {
    |words| >= 1 &&
    forall k :: 0 <= k < |words| ==> words[k] != [] && forall i :: 0 <= i < |words[k]| ==> !IsWhiteSpace(words[k][i])
  }

  /**
   * Stripping a prefix that does not start with white space, then any white
   * space, gives back the words that were joined after it.
   */
  lemma WordsAfterPrefix(prefix: string, gap: string, words: seq<string>)
    requires prefix != [] && !IsWhiteSpace(prefix[0])
    requires forall i :: 0 <= i < |gap| ==> IsWhiteSpace(gap[i])
    requires PlainWords(words)
    ensures Words(prefix + gap + Join(words, " "), |prefix|) == words
  {
    var joined := Join(words, " ");
    JoinOfPlainWords(words);
    TrimmedAround(prefix, gap, joined);
    TrimAfterSpace(gap, joined);
    TrimTrimmed(joined);
    PlainWordsHaveNoSpace(words);
    SplitJoin(words);
  }

  /** Plain words joined with spaces neither start nor end with white space. */
  lemma JoinOfPlainWords(words: seq<string>)
    requires PlainWords(words)
    ensures var joined := Join(words, " ");
      joined != [] && !IsWhiteSpace(joined[0]) && !IsWhiteSpace(joined[|joined| - 1])
  {
    PlainWordsHaveNoSpace(words);
    JoinHead(words);
    JoinLast(words, " ");
  }

  /** A text framed by non-white characters is its own trim, and cutting the prefix leaves the rest. */
  lemma TrimmedAround(prefix: string, gap: string, joined: string)
    requires prefix != [] && !IsWhiteSpace(prefix[0])
    requires joined != [] && !IsWhiteSpace(joined[|joined| - 1])
    ensures Trim(prefix + gap + joined) == prefix + gap + joined
    ensures Slice(prefix + gap + joined, |prefix|) == gap + joined
  {
    var text := prefix + gap + joined;
    assert text[0] == prefix[0];
    assert text[|text| - 1] == joined[|joined| - 1];
    TrimTrimmed(text);
    assert text[|prefix|..] == gap + joined;
  }

  /** Plain words have no space in them. */
  lemma PlainWordsHaveNoSpace(words: seq<string>)
    requires PlainWords(words)
    ensures forall k :: 0 <= k < |words| ==> words[k] != [] && ' ' !in words[k]
  {
  }

  /** A command written after the default prefix and a space is read word for word. */
  lemma DefaultPrefixRoundTrip(defaultPrefix: string, customPrefix: Option<string>, words: seq<string>,
                               commands: set<string>, throws: (string, seq<string>) -> bool)
    requires defaultPrefix != [] && !IsWhiteSpace(defaultPrefix[0])
    requires PlainWords(words)
    requires !StartsWith(defaultPrefix + " " + Join(words, " "), CustomPrefixText(customPrefix))
    requires ToLower(words[0]) in commands && !throws(ToLower(words[0]), words[1..])
    ensures Handle(defaultPrefix + " " + Join(words, " "), false, customPrefix, defaultPrefix, commands, throws)
         == Executed(ToLower(words[0]), words[1..])
  {
    var text := defaultPrefix + " " + Join(words, " ");
    assert StartsWith(text, defaultPrefix) by {
      assert text[..|defaultPrefix|] == defaultPrefix;
    }
    assert Accepted(text, false, customPrefix, defaultPrefix);
    WordsAfterPrefix(defaultPrefix, " ", words);
    assert Tokens(text, customPrefix, defaultPrefix) == Some(words);
  }

  /** A command written after the custom prefix and a space is read word for word. */
  lemma CustomPrefixRoundTrip(defaultPrefix: string, customPrefix: string, words: seq<string>,
                              commands: set<string>, throws: (string, seq<string>) -> bool)
    requires customPrefix != [] && !IsWhiteSpace(customPrefix[0])
    requires PlainWords(words)
    requires ToLower(words[0]) in commands && !throws(ToLower(words[0]), words[1..])
    ensures Handle(customPrefix + " " + Join(words, " "), false, Some(customPrefix), defaultPrefix, commands, throws)
         == Executed(ToLower(words[0]), words[1..])
  {
    var text := customPrefix + " " + Join(words, " ");
    assert StartsWith(text, customPrefix) by {
      assert text[..|customPrefix|] == customPrefix;
    }
    assert Accepted(text, false, Some(customPrefix), defaultPrefix);
    WordsAfterPrefix(customPrefix, " ", words);
    assert Tokens(text, Some(customPrefix), defaultPrefix) == Some(words);
  }

  /**
   * A custom prefix that begins the default prefix takes over messages
   * written with the default prefix: the rest of the default prefix becomes
   * the command name. With the default `=note` and the custom prefix `=`,
   * `=note play x` runs `note`, not `play`.
   */
  lemma CustomPrefixShadowsDefault(defaultPrefix: string, k: nat, words: seq<string>)
    requires 0 < k < |defaultPrefix|
    requires forall i :: 0 <= i < |defaultPrefix| ==> !IsWhiteSpace(defaultPrefix[i])
    requires PlainWords(words)
    ensures Tokens(defaultPrefix + " " + Join(words, " "), Some(defaultPrefix[..k]), defaultPrefix)
         == Some([defaultPrefix[k..]] + words)
  {
    var custom := defaultPrefix[..k];
    var rest := defaultPrefix[k..];
    assert forall i :: 0 <= i < |rest| ==> !IsWhiteSpace(rest[i]) by {
      assert forall i :: 0 <= i < |rest| ==> rest[i] == defaultPrefix[k + i];
    }
    assert !IsWhiteSpace(custom[0]);
    assert defaultPrefix == custom + rest;
    SplitPrefixShadows(custom, rest, words);
  }

  /** `CustomPrefixShadowsDefault` with the default prefix already cut in two. */
  lemma SplitPrefixShadows(custom: string, rest: string, words: seq<string>)
    requires custom != [] && !IsWhiteSpace(custom[0])
    requires rest != [] && forall i :: 0 <= i < |rest| ==> !IsWhiteSpace(rest[i])
    requires PlainWords(words)
    ensures Tokens(custom + rest + " " + Join(words, " "), Some(custom), custom + rest) == Some([rest] + words)
  {
    PlainWordsCons(rest, words);
    var all := [rest] + words;
    var text := custom + rest + " " + Join(words, " ");
    assert text == custom + "" + Join(all, " ") by {
      JoinCons(rest, words);
      Regroup(custom, rest, Join(words, " "));
    }
    assert Words(text, |custom|) == all by {
      WordsAfterPrefix(custom, "", all);
    }
    assert StartsWith(text, custom) by {
      assert text[..|custom|] == custom;
    }
    TokensAfterCustom(text, custom, custom + rest);
  }

  /** Moving the cut between a prefix and what follows it. */
  lemma Regroup(a: string, b: string, c: string)
    ensures (a + b) + " " + c == a + "" + (b + " " + c)
  {
  }

  /** A space-joined list with a word in front. */
  lemma JoinCons(w: string, words: seq<string>)
    requires |words| >= 1
    ensures Join([w] + words, " ") == w + " " + Join(words, " ")
  {
    assert ([w] + words)[1..] == words;
  }

  /** A text that starts with the custom prefix is cut after it. */
  lemma TokensAfterCustom(text: string, custom: string, defaultPrefix: string)
    requires StartsWith(text, custom)
    ensures Tokens(text, Some(custom), defaultPrefix) == Some(Words(text, |custom|))
  {
  }

  /** A plain word in front of plain words keeps them plain. */
  lemma PlainWordsCons(w: string, words: seq<string>)
    requires w != [] && forall i :: 0 <= i < |w| ==> !IsWhiteSpace(w[i])
    requires PlainWords(words)
    ensures PlainWords([w] + words)
  {
    var all := [w] + words;
    forall j | 0 <= j < |all|
      ensures all[j] != [] && forall i :: 0 <= i < |all[j]| ==> !IsWhiteSpace(all[j][i])
    {
      if j > 0 {
        assert all[j] == words[j - 1];
      }
    }
  }
}
