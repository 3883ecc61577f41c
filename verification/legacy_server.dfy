/**
 * The message handler of the first bot (`src/server.ts`): a message is a
 * command when it starts with `$` and its author is not a bot; the text is
 * trimmed, its first character dropped and the rest split on runs of
 * spaces, with no second trim. The first token, lower-cased, names the
 * command.
 */
module LegacyServer {
  import opened Wrappers
  import opened Text
  import Server

  /** The first bot's fixed prefix. */
  const Prefix: string := "$"

  /** `message.content.trim().slice(1).split(/ +/)`. */
  function Tokens(text: string): (r: seq<string>)
    ensures |r| >= 1
  {
    SplitSpaces(Server.Slice(Trim(text), 1))
  }

  /** The handler: accept, tokenise, look the lower-cased first token up, run it. */
  function Handle(text: string, fromBot: bool, commands: set<string>, throws: (string, seq<string>) -> bool): (h: Server.Handled)
    ensures h == Server.Ignored <==> !StartsWith(text, Prefix) || fromBot
    ensures !h.Crashed?
    ensures !h.Ignored? ==>
      var words := Tokens(text);
      var name := ToLower(words[0]);
      (h == Server.UnknownCommand(name) <==> name !in commands) &&
      (h == Server.Executed(name, words[1..]) <==> name in commands && !throws(name, words[1..])) &&
      (h == Server.ExecutionFailed(name) <==> name in commands && throws(name, words[1..]))
  {
    if !StartsWith(text, Prefix) || fromBot then Server.Ignored
    else
      var args := Tokens(text);
      var command := ToLower(args[0]);
      if command !in commands then Server.UnknownCommand(command)
      else if throws(command, args[1..]) then Server.ExecutionFailed(command)
      else Server.Executed(command, args[1..])
  }

  /** `$` followed directly by the words of a command reads them back. */
  lemma RoundTrip(words: seq<string>, commands: set<string>, throws: (string, seq<string>) -> bool)
    requires Server.PlainWords(words)
    requires ToLower(words[0]) in commands && !throws(ToLower(words[0]), words[1..])
    ensures Handle(Prefix + Join(words, " "), false, commands, throws) == Server.Executed(ToLower(words[0]), words[1..])
  {
    var text := Prefix + Join(words, " ");
    assert StartsWith(text, Prefix) by {
      assert text[..1] == Prefix;
    }
    var joined := Join(words, " ");
    Server.PlainWordsHaveNoSpace(words);
    assert Trim(text) == text by {
      JoinLast(words, " ");
      assert text[|text| - 1] == joined[|joined| - 1];
      TrimTrimmed(text);
    }
    assert Server.Slice(text, 1) == joined;
    SplitJoin(words);
    assert Tokens(text) == words;
  }

  /**
   * With no second trim, a space after `$` leaves an empty first token: `$ play`
   * looks up the command `""`, not `play`.
   */
  lemma SpaceAfterPrefix(rest: string)
    ensures Tokens(Prefix + " " + rest)[0] == ""
  {
    var text := Prefix + " " + rest;
    var t := Trim(text);
    assert TrimStart(text) == text;
    assert t == TrimEnd(text);
    assert !IsWhiteSpace(text[0]);
    if |t| >= 2 {
      assert t[1] == text[1] == ' ';
      assert Server.Slice(t, 1)[0] == ' ';
    } else {
      assert Server.Slice(t, 1) == "";
    }
  }
}
