/**
 * The bot's own logic in cmd/adan-bot/main.go: the API token check that
 * `Main` does before connecting, and the rules by which the update loop picks
 * the updates it answers and the text it answers them with.
 */
module Bot {
  import opened Wrappers
  import opened GoErrors
  import opened Config

  // ---------------------------------------------------------------------------
  // The token

  /** True when every character of `s` is a double quote. */
  predicate AllQuotes(s: string) {
    forall i :: 0 <= i < |s| ==> s[i] == '"'
  }

  /** `strings.TrimLeft(s, "\"")`: drop every leading double quote. */
  function TrimLeading(s: string): (t: string)
    ensures |t| <= |s| && t == s[|s| - |t|..]
    ensures AllQuotes(s[..|s| - |t|])
    ensures t == [] || t[0] != '"'
    decreases |s|
  {
    if s != [] && s[0] == '"' then
      var t := TrimLeading(s[1..]);
      assert s[..|s| - |t|] == [s[0]] + s[1..][..|s[1..]| - |t|];
      t
    else s
  }

  /** `strings.TrimRight(s, "\"")`: drop every trailing double quote. */
  function TrimTrailing(s: string): (t: string)
    ensures |t| <= |s| && t == s[..|t|]
    ensures AllQuotes(s[|t|..])
    ensures t == [] || t[|t| - 1] != '"'
    decreases |s|
  {
    if s != [] && s[|s| - 1] == '"' then
      var t := TrimTrailing(s[..|s| - 1]);
      assert s[|t|..] == s[..|s| - 1][|t|..] + [s[|s| - 1]];
      t
    else s
  }

  /** `strings.Trim(s, "\"")`: drop the double quotes at both ends. */
  function Trim(s: string): string {
    TrimTrailing(TrimLeading(s))
  }

  /**
   * The token: `TELEGRAM_API_TOKEN` (empty when not set) without its
   * surrounding quotes; none left means ErrMissingToken.
   */
  function Token(env: Env): (r: Result<string, Error>)
    ensures r.Err? ==> r.error == Sentinel(MissingToken)
  {
    var token := Trim(Getenv(env, "TELEGRAM_API_TOKEN"));
    if token == "" then Err(Sentinel(MissingToken)) else Ok(token)
  }

  // ---------------------------------------------------------------------------
  // Updates and replies

  /**
   * A message as the Telegram library hands it over: the chat it came from
   * and, when the message is a command, the command's name (`Command()`).
   */
  datatype Message = Message(chat: int, command: Option<string>)

  /** An update from the update channel; not every update carries a message. */
  datatype Update = Update(message: Option<Message>)

  /** A message to send: the chat it goes to and its text. */
  datatype Reply = Reply(chat: int, text: string)

  const HelpText: string := "/hola and /status."
  const HolaText: string :=
    "Hola mi nombre es Adan el Bot \U{1F916} de la comunidad de Golang"
    + " Venezuela. Y como la cancion: <<naci en esta ribera del "
    + "arauca vibrador, soy hermano de la espuma de las garzas de "
    + "las rosas y del sol.>> "
  const StatusText: string := "De momento todo esta bien"
  const UnknownText: string := "I don't know that command"

  /** The commands the bot knows. */
  predicate Known(command: string) {
    command == "help" || command == "hola" || command == "status"
  }

  /** The text of the answer to a command. */
  function ReplyText(command: string): string {
    match command
    case "help" => HelpText
    case "hola" => HolaText
    case "status" => StatusText
    case _ => UnknownText
  }

  /** An update the loop answers: it has a message and the message is a command. */
  predicate Answered(u: Update) {
    u.message.Some? && u.message.value.command.Some?
  }

  /** The reply to an answered update, addressed to the chat it came from. */
  function ReplyTo(u: Update): (r: Reply)
    requires Answered(u)
    ensures r.chat == u.message.value.chat
  {
    Reply(u.message.value.chat, ReplyText(u.message.value.command.value))
  }

  /** Everything the update loop sends for `updates`, in order. */
  function Replies(updates: seq<Update>): seq<Reply>
    decreases |updates|
  {
    if updates == [] then []
    else (if Answered(updates[0]) then [ReplyTo(updates[0])] else []) + Replies(updates[1..])
  }

  /** The answered updates among `updates`, in order. */
  function AnsweredOnes(updates: seq<Update>): (a: seq<Update>)
    ensures forall i :: 0 <= i < |a| ==> Answered(a[i])
    ensures |a| <= |updates|
    decreases |updates|
  {
    if updates == [] then []
    else (if Answered(updates[0]) then [updates[0]] else []) + AnsweredOnes(updates[1..])
  }

  /** An update is among the answered ones exactly when it is one of `updates` and is answered. */
  lemma {:induction false} AnsweredOnesMembers(updates: seq<Update>, u: Update)
    ensures u in AnsweredOnes(updates) <==> u in updates && Answered(u)
    decreases |updates|
  {
    if updates != [] {
      AnsweredOnesMembers(updates[1..], u);
      assert updates == [updates[0]] + updates[1..];
    }
  }

  /** The answered updates of two batches are those of the first, then those of the second: order is kept. */
  lemma {:induction false} AnsweredOnesAppend(x: seq<Update>, y: seq<Update>)
    ensures AnsweredOnes(x + y) == AnsweredOnes(x) + AnsweredOnes(y)
    decreases |x|
  {
    if x == [] {
      assert x + y == y;
    } else {
      assert (x + y)[1..] == x[1..] + y;
      AnsweredOnesAppend(x[1..], y);
    }
  }

  /**
   * `Main` up to the end of its update loop: the token check, the connection
   * (whose outcome is `connected`), then one message sent per answered update.
   * A failed send is only logged, so it changes nothing here.
   */
  function Serve(env: Env, connected: bool, updates: seq<Update>): (r: Result<seq<Reply>, Error>)
  {
    match Token(env)
    case Err(e) => Err(e)
    case Ok(_) =>
      if !connected then Err(Annotated("cannot connect to Telegram API", Os(ConnectFailed)))
      else Ok(Replies(updates))
  }

  /** The update loop of `Main`, one update at a time; `outbox` is what it hands to `bot.Send`. */
  method Loop(updates: seq<Update>) returns (outbox: seq<Reply>)
    ensures outbox == Replies(updates)
  {
    outbox := [];
    var i := 0;
    while i < |updates|
      invariant 0 <= i <= |updates|
      invariant outbox + Replies(updates[i..]) == Replies(updates)
    {
      var update := updates[i];
      assert updates[i..][1..] == updates[i + 1..];
      i := i + 1;
      if update.message.None? {
        continue;
      }
      if update.message.value.command.None? {
        continue;
      }
      var chat := update.message.value.chat;
      var text := ReplyText(update.message.value.command.value);
      outbox := outbox + [Reply(chat, text)];
    }
    assert updates[|updates|..] == [];
  }

  // ---------------------------------------------------------------------------
  // Properties

  /** Trimming removes a run of quotes and nothing else: the token is the value with its ends trimmed. */
  lemma TrimIsInfix(s: string)
    ensures var t := Trim(s);
      exists a, b :: 0 <= a <= b <= |s| && t == s[a..b] && AllQuotes(s[..a]) && AllQuotes(s[b..])
  {
    var l := TrimLeading(s);
    var t := TrimTrailing(l);
    var a := |s| - |l|;
    var b := a + |t|;
    assert t == l[..|t|] && l == s[a..];
    assert t == s[a..b];
    assert s[b..] == l[|t|..];
  }

  /** Nothing is left of a value exactly when it is made of double quotes only. */
  lemma TrimEmptyIffAllQuotes(s: string)
    ensures Trim(s) == "" <==> AllQuotes(s)
  {
    var l := TrimLeading(s);
    if Trim(s) == "" {
      // the quotes TrimTrailing removed are all of `l`, which then cannot start with one
      assert l[0..] == l;
      assert s[..|s|] == s;
    }
  }

  /** Trimming twice trims nothing more. */
  lemma TrimIdempotent(s: string)
    ensures Trim(Trim(s)) == Trim(s)
  {
    var t := Trim(s);
    if t != [] {
      var l := TrimLeading(s);
      var r := TrimTrailing(l);
      assert r == l[..|r|];
      assert t[0] == l[0];
      assert TrimLeading(t) == t;
    }
  }

  /** What is left after trimming starts and ends with something other than a double quote. */
  lemma TrimEnds(s: string)
    requires Trim(s) != ""
    ensures Trim(s)[0] != '"' && Trim(s)[|Trim(s)| - 1] != '"'
  {
    var l := TrimLeading(s);
    var t := TrimTrailing(l);
    assert t == l[..|t|];
    assert t[0] == l[0];
  }

  /**
   * The token check: ErrMissingToken exactly when `TELEGRAM_API_TOKEN` is unset
   * or holds nothing but double quotes.
   */
  lemma TokenMissingIffOnlyQuotes(env: Env)
    ensures Token(env).Err? <==> AllQuotes(Getenv(env, "TELEGRAM_API_TOKEN"))
  {
    TrimEmptyIffAllQuotes(Getenv(env, "TELEGRAM_API_TOKEN"));
  }

  /** A token that passes the check has no double quote at either end. */
  lemma TokenUnquoted(env: Env)
    requires Token(env).Ok?
    ensures var t := Token(env).value; t != "" && t[0] != '"' && t[|t| - 1] != '"'
  {
    TrimEnds(Getenv(env, "TELEGRAM_API_TOKEN"));
  }

  /** The token is checked before any connection is attempted. */
  lemma MissingTokenBeforeConnecting(env: Env, connected: bool, updates: seq<Update>)
    requires AllQuotes(Getenv(env, "TELEGRAM_API_TOKEN"))
    ensures Serve(env, connected, updates) == Err(Sentinel(MissingToken))
  {
    TokenMissingIffOnlyQuotes(env);
  }

  /**
   * `Main` reaches its update loop exactly when the token check passes and the
   * connection succeeds; a failed connection is reported with its cause.
   */
  lemma ServeOutcome(env: Env, connected: bool, updates: seq<Update>)
    ensures Serve(env, connected, updates).Ok? <==> Token(env).Ok? && connected
    ensures Serve(env, connected, updates).Ok? ==> Serve(env, connected, updates).value == Replies(updates)
    ensures Token(env).Ok? && !connected ==>
      Serve(env, connected, updates) == Err(Annotated("cannot connect to Telegram API", Os(ConnectFailed)))
  {
  }

  /** The three known commands get three different texts; every other command gets the fallback. */
  lemma ReplyTextCases(command: string)
    ensures ReplyText(command) == UnknownText <==> !Known(command)
    ensures HelpText != HolaText && HolaText != StatusText && StatusText != HelpText
  {
    assert |HelpText| == 18 && |StatusText| == 25 && |UnknownText| == 25 && |HolaText| > 25;
    assert StatusText[0] != UnknownText[0];
  }

  /** The loop answers updates one at a time: the replies to two runs of updates are the two runs of replies. */
  lemma {:induction false} RepliesAppend(a: seq<Update>, b: seq<Update>)
    ensures Replies(a + b) == Replies(a) + Replies(b)
    decreases |a|
  {
    if a == [] {
      assert a + b == b;
    } else {
      var head := if Answered(a[0]) then [ReplyTo(a[0])] else [];
      assert (a + b)[0] == a[0];
      assert (a + b)[1..] == a[1..] + b;
      RepliesAppend(a[1..], b);
      calc {
        Replies(a + b);
        head + Replies(a[1..] + b);
        head + (Replies(a[1..]) + Replies(b));
        (head + Replies(a[1..])) + Replies(b);
        Replies(a) + Replies(b);
      }
    }
  }

  /**
   * Exactly one reply per answered update, in update order, each addressed to
   * the chat the command came from.
   */
  lemma {:induction false} OneReplyPerCommand(updates: seq<Update>)
    ensures var a := AnsweredOnes(updates);
      |Replies(updates)| == |a|
      && forall i :: 0 <= i < |a| ==> Replies(updates)[i] == ReplyTo(a[i])
    decreases |updates|
  {
    if updates != [] {
      OneReplyPerCommand(updates[1..]);
    }
  }

  /** Updates without a message, and messages that are not commands, get no reply. */
  lemma UnansweredIgnored(updates: seq<Update>, u: Update)
    requires !Answered(u)
    ensures Replies(updates + [u]) == Replies(updates)
  {
    RepliesAppend(updates, [u]);
    assert [u][1..] == [];
  }
}
