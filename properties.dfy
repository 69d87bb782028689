/**
 What the bot core promises, stated over the specification functions of
 module `Disgobot`: the operator gate, the `!quit` and `!delmsg` rules, the
 counts `!op` and `!deop` report, the reply format, the handling of the
 bot's own messages, channel mentions and plugin descriptors.
 */
module DisgobotProperties {
  import opened GoStrings
  import opened Discord
  import opened Disgobot

  /** The commands only an operator may use. */
  const Privileged: set<string> := {"!op", "!deop", "!delmsg", "!ops", "!quit"}

  // ---------------------------------------------------------------------
  // Sets and sequences

  lemma {:induction false} ElemsCard(s: seq<string>)
    ensures |Elems(s)| <= |s|
  {
    if s != [] {
      var init := s[..|s| - 1];
      ElemsCard(init);
      assert s == init + [s[|s| - 1]];
      ElemsAppend(init, [s[|s| - 1]]);
      assert Elems([s[|s| - 1]]) == {s[|s| - 1]};
    }
  }

  lemma SubsetCard(a: set<string>, b: set<string>)
    requires a <= b
    ensures |a| <= |b|
  {
    assert b == a + (b - a);
  }

  // ---------------------------------------------------------------------
  // opUsers

  /** `opUsers` counts each user at most once, so its count never exceeds
      the length of the list. */
  lemma CountAtMostListed(ops: set<string>, users: seq<string>, deop: bool)
    ensures |Flipped(ops, Elems(users), deop)| <= |users|
  {
    ElemsCard(users);
    SubsetCard(Flipped(ops, Elems(users), deop), Elems(users));
  }

  /** Granting users who are all operators already counts 0 and changes
      nothing; so does revoking users none of whom is an operator. */
  lemma NothingToChange(ops: set<string>, users: seq<string>, deop: bool)
    requires if deop then Elems(users) !! ops else Elems(users) <= ops
    ensures |Flipped(ops, Elems(users), deop)| == 0
    ensures Granted(ops, Elems(users), deop) == ops
  {
    assert Flipped(ops, Elems(users), deop) == {};
  }

  /** Applying the same list twice: the second pass counts 0 and changes
      nothing (`AddOp` and `RemOp` are idempotent). */
  lemma OpUsersIdempotent(ops: set<string>, users: seq<string>, deop: bool)
    ensures var after := Granted(ops, Elems(users), deop);
            Granted(after, Elems(users), deop) == after
            && |Flipped(after, Elems(users), deop)| == 0
  {
    var after := Granted(ops, Elems(users), deop);
    assert Flipped(after, Elems(users), deop) == {};
  }

  /** `!deop id1 id2` when only `id1` is an operator reports one user. */
  lemma DeopCountsOnlyMembers(ops: set<string>, id1: string, id2: string)
    requires id1 in ops && id2 !in ops
    ensures |Flipped(ops, Elems([id1, id2]), true)| == 1
  {
    assert Elems([id1, id2]) == {id1, id2};
    assert Flipped(ops, Elems([id1, id2]), true) == {id1};
  }

  // ---------------------------------------------------------------------
  // idsToUsers

  /** `idsToUsers` keeps exactly the users the ids resolve to: ids that do
      not resolve are skipped, and it never returns more users than ids. */
  lemma {:induction false} ResolvedMembers(ids: seq<string>, users: map<string, string>)
    ensures |Resolved(ids, users)| <= |ids|
    ensures forall u :: u in Resolved(ids, users) <==>
              exists i :: 0 <= i < |ids| && ids[i] in users && users[ids[i]] == u
  {
    if ids != [] {
      var init := ids[..|ids| - 1];
      ResolvedMembers(init, users);
      var last := ids[|ids| - 1];
      assert Resolved(ids, users) == Resolved(init, users) + (if last in users then [users[last]] else []);
      forall u
        ensures u in Resolved(ids, users) <==>
                exists i :: 0 <= i < |ids| && ids[i] in users && users[ids[i]] == u
      {
        if u in Resolved(ids, users) {
          if u in Resolved(init, users) {
            var i :| 0 <= i < |init| && init[i] in users && users[init[i]] == u;
            assert ids[i] == init[i];
          } else {
            assert last in users && users[last] == u;
          }
        }
        if exists i :: 0 <= i < |ids| && ids[i] in users && users[ids[i]] == u {
          var i :| 0 <= i < |ids| && ids[i] in users && users[ids[i]] == u;
          if i < |ids| - 1 {
            assert init[i] == ids[i];
            assert u in Resolved(init, users);
          }
        }
      }
    }
  }

  // ---------------------------------------------------------------------
  // The reply to !op and !deop

  /** `Join` of five words. */
  lemma Join5(a: string, b: string, c: string, d: string, e: string, sep: char)
    ensures Join([a, b, c, d, e], sep) == a + [sep] + (b + [sep] + (c + [sep] + (d + [sep] + e)))
  {
    assert [a, b, c, d, e][1..] == [b, c, d, e];
    assert [b, c, d, e][1..] == [c, d, e];
    assert [c, d, e][1..] == [d, e];
    assert [d, e][1..] == [e];
    assert Join([d, e], sep) == d + [sep] + e;
    assert Join([c, d, e], sep) == c + [sep] + (d + [sep] + e);
    assert Join([b, c, d, e], sep) == b + [sep] + (c + [sep] + (d + [sep] + e));
  }

  /** Regrouping the reply around the space after the number. */
  lemma Regroup(d: string, user: string, plural: string, noun: string, tail: string, rest: string)
    requires user + plural == [' '] + noun
    requires tail == [' '] + rest
    ensures d + user + plural + tail == d + [' '] + (noun + [' '] + rest)
  {
    calc {
      d + user + plural + tail;
      d + (user + plural) + tail;
      d + ([' '] + noun) + ([' '] + rest);
      d + [' '] + (noun + [' '] + rest);
    }
  }

  /** The fixed end of the reply, word by word. */
  lemma ReplyTail(deop: bool)
    ensures (if deop then " removed from operators." else " added to operators.")
            == [' '] + ((if deop then "removed" else "added") + [' ']
                        + ((if deop then "from" else "to") + [' '] + "operators."))
  {
    if deop {
      assert " removed from operators." == [' '] + ("removed" + [' '] + ("from" + [' '] + "operators."));
    } else {
      assert " added to operators." == [' '] + ("added" + [' '] + ("to" + [' '] + "operators."));
    }
  }

  /** The reply is five words separated by single spaces. */
  lemma ReplyWords(count: nat, deop: bool)
    ensures OpReply(count, deop)
            == Join([Decimal(count), "user" + AddS(count != 1), if deop then "removed" else "added",
                     if deop then "from" else "to", "operators."], ' ')
  {
    var d := Decimal(count);
    var noun := "user" + AddS(count != 1);
    var verb := if deop then "removed" else "added";
    var prep := if deop then "from" else "to";
    var tail := if deop then " removed from operators." else " added to operators.";
    Join5(d, noun, verb, prep, "operators.", ' ');
    ReplyTail(deop);
    assert " user" + AddS(count != 1) == [' '] + noun by {
      assert " user" == [' '] + "user";
    }
    Regroup(d, " user", AddS(count != 1), noun, tail, verb + [' '] + (prep + [' '] + "operators."));
  }

  /** Reading the reply back word by word gives the count, the right
      singular or plural noun, and the direction of the change. */
  lemma ReplyReadBack(count: nat, deop: bool)
    ensures var words := Split(OpReply(count, deop), ' ');
            && |words| == 5
            && IsDecimal(words[0]) && DecimalValue(words[0]) == count
            && (words[1] == "users" <==> count != 1)
            && (words[1] == "user" <==> count == 1)
            && (words[2] == "removed" <==> deop)
            && (words[2] == "added" <==> !deop)
            && words[3] == (if deop then "from" else "to")
            && words[4] == "operators."
  {
    var d := Decimal(count);
    var noun := "user" + AddS(count != 1);
    var verb := if deop then "removed" else "added";
    var prep := if deop then "from" else "to";
    var parts := [d, noun, verb, prep, "operators."];
    ReplyWords(count, deop);
    assert forall i :: 0 <= i < |parts| ==> ' ' !in parts[i];
    SplitJoin(parts, ' ');
    DecimalRoundTrip(count);
  }

  /** The example reply of the command table. */
  lemma OneUserAdded()
    ensures OpReply(1, false) == "1 user added to operators."
  {
    assert Decimal(1) == "1" by {
      assert Digit(1) == '1';
    }
    assert "1" + " user" + "" + " added to operators." == "1 user added to operators.";
  }

  // ---------------------------------------------------------------------
  // messageCreate

  /** The content is split on single spaces, so there is always a first
      token, and joining the tokens restores the content. */
  lemma TokensRoundTrip(m: Message)
    ensures |Tokens(m)| == Count(m.content, ' ') + 1
    ensures Join(Tokens(m), ' ') == m.content
  {
    JoinSplit(m.content, ' ');
  }

  /** A message written by the bot itself changes nothing and causes no
      effect: not even the procs run. */
  lemma OwnMessageIgnored(ops: set<string>, procOrder: seq<string>, opsOrder: seq<string>,
                          m: Message, gw: Gateway)
    requires m.author == gw.self
    ensures Handle(ops, procOrder, opsOrder, m, gw) == Outcome(ops, [])
  {
  }

  /** Every other message runs every registered proc exactly once, before
      anything else happens. */
  lemma ProcsRunFirst(ops: set<string>, procOrder: seq<string>, opsOrder: seq<string>,
                      m: Message, gw: Gateway)
    requires m.author != gw.self
    ensures var effects := Handle(ops, procOrder, opsOrder, m, gw).effects;
            |Runs(procOrder, Tokens(m))| == |procOrder| <= |effects|
            && effects[..|procOrder|] == Runs(procOrder, Tokens(m))
            && forall i :: 0 <= i < |procOrder| ==> effects[i] == Run(procOrder[i], Tokens(m))
    ensures var effects := Handle(ops, procOrder, opsOrder, m, gw).effects;
            forall i :: |procOrder| <= i < |effects| ==> !effects[i].Run?
  {
    RunsAt(procOrder, Tokens(m));
    CommandRunsNothing(ops, opsOrder, m, Tokens(m), gw);
  }

  /** The built-in commands never invoke a proc. */
  lemma CommandRunsNothing(ops: set<string>, opsOrder: seq<string>, m: Message, msg: seq<string>, gw: Gateway)
    requires |msg| >= 1
    ensures forall i :: 0 <= i < |Command(ops, opsOrder, m, msg, gw).effects| ==>
              !Command(ops, opsOrder, m, msg, gw).effects[i].Run?
  {
  }

  lemma {:induction false} RunsAt(order: seq<string>, args: seq<string>)
    ensures |Runs(order, args)| == |order|
    ensures forall i :: 0 <= i < |order| ==> Runs(order, args)[i] == Run(order[i], args)
  {
    if order != [] {
      RunsAt(order[..|order| - 1], args);
    }
  }

  /** A non-operator who sends a privileged command changes no operator,
      deletes nothing and closes nothing: after the procs, the only effect
      is the notice that they are not an operator, when their private
      channel opens. */
  lemma NonOperatorDenied(ops: set<string>, procOrder: seq<string>, opsOrder: seq<string>,
                          m: Message, gw: Gateway)
    requires m.author != gw.self && m.author !in ops
    requires Tokens(m)[0] in Privileged
    ensures Handle(ops, procOrder, opsOrder, m, gw)
            == Outcome(ops, Runs(procOrder, Tokens(m))
                            + if m.author in gw.directs then [SendDirect(m.author, NotOperator)] else [])
  {
  }

  /** Only an operator's `!op` or `!deop` changes the operator set. */
  lemma OnlyOperatorsChangeOperators(ops: set<string>, procOrder: seq<string>, opsOrder: seq<string>,
                                     m: Message, gw: Gateway)
    ensures Handle(ops, procOrder, opsOrder, m, gw).ops != ops ==>
              m.author != gw.self && m.author in ops && Tokens(m)[0] in {"!op", "!deop"}
  {
  }

  /** `!op` and `!deop` from an operator: every resolved id and every
      mentioned user gets the requested membership, nobody else changes,
      and the reply reports the number of users whose membership changed,
      which is at most the number of resolved ids plus mentions (a user
      given both ways is counted once). */
  lemma OperatorChangesOps(ops: set<string>, procOrder: seq<string>, opsOrder: seq<string>,
                           m: Message, gw: Gateway)
    requires m.author != gw.self && m.author in ops
    requires Tokens(m)[0] == "!op" || Tokens(m)[0] == "!deop"
    ensures var deop := Tokens(m)[0] == "!deop";
            var resolved := Resolved(Tokens(m)[1..], gw.users);
            var out := Handle(ops, procOrder, opsOrder, m, gw);
            var changed := (ops - out.ops) + (out.ops - ops);
            && (forall u :: u in resolved || u in m.mentions ==> (u in out.ops <==> !deop))
            && (forall x :: x !in resolved && x !in m.mentions ==> (x in out.ops <==> x in ops))
            && out.effects == Runs(procOrder, Tokens(m)) + [Send(m.channel, OpReply(|changed|, deop))]
            && |changed| <= |resolved| + |m.mentions|
  {
    var deop := Tokens(m)[0] == "!deop";
    var resolved := Resolved(Tokens(m)[1..], gw.users);
    var targets := resolved + m.mentions;
    ElemsAppend(resolved, m.mentions);
    GrantedChanges(ops, Elems(targets), deop);
    CountAtMostListed(ops, targets, deop);
  }

  /** `!quit` closes the session exactly when an operator sends it outside
      any guild; a message from a guild never closes it. */
  lemma CloseOnlyOnQuit(ops: set<string>, procOrder: seq<string>, opsOrder: seq<string>,
                        m: Message, gw: Gateway)
    ensures Close in Handle(ops, procOrder, opsOrder, m, gw).effects <==>
              m.author != gw.self && Tokens(m)[0] == "!quit" && m.author in ops && m.guild == ""
    ensures m.author != gw.self && Tokens(m)[0] == "!quit" && m.author in ops && m.guild == "" ==>
              Handle(ops, procOrder, opsOrder, m, gw).effects == Runs(procOrder, Tokens(m)) + [Close]
  {
    if m.author != gw.self {
      RunsAt(procOrder, Tokens(m));
      var c := Command(ops, opsOrder, m, Tokens(m), gw);
      assert Close in Runs(procOrder, Tokens(m)) + c.effects <==> Close in c.effects;
    }
  }

  /** `!delmsg` deletes a message only for an operator and only when the
      channel and the message are both given; it deletes `tokens[2]` in
      channel `tokens[1]`. */
  lemma DeleteOnlyWithBothArguments(ops: set<string>, procOrder: seq<string>, opsOrder: seq<string>,
                                    m: Message, gw: Gateway)
    ensures forall e :: e in Handle(ops, procOrder, opsOrder, m, gw).effects && e.Delete? ==>
              m.author != gw.self && Tokens(m)[0] == "!delmsg" && m.author in ops && |Tokens(m)| >= 3
    ensures m.author != gw.self && Tokens(m)[0] == "!delmsg" && m.author in ops && |Tokens(m)| >= 3 ==>
              Handle(ops, procOrder, opsOrder, m, gw).effects
              == Runs(procOrder, Tokens(m)) + [Delete(Tokens(m)[1], Tokens(m)[2])]
    ensures m.author != gw.self && Tokens(m)[0] == "!delmsg" && m.author in ops && |Tokens(m)| < 3 ==>
              Handle(ops, procOrder, opsOrder, m, gw) == Outcome(ops, Runs(procOrder, Tokens(m)))
  {
    if m.author != gw.self {
      RunsAt(procOrder, Tokens(m));
      var runs := Runs(procOrder, Tokens(m));
      var c := Command(ops, opsOrder, m, Tokens(m), gw);
      forall e | e in runs + c.effects && e.Delete?
        ensures e in c.effects
      {
        assert e !in runs;
      }
    }
  }

  /** Three space-free words joined by single spaces split back into them. */
  lemma SplitThree(a: string, b: string, c: string)
    requires ' ' !in a && ' ' !in b && ' ' !in c
    ensures Split(a + [' '] + (b + [' '] + c), ' ') == [a, b, c]
  {
    SplitNoSeparator(c, ' ');
    SplitAtSeparator(b, ' ', c);
    SplitAtSeparator(a, ' ', b + [' '] + c);
  }

  lemma ExampleContent()
    ensures "!op 123 456" == "!op" + [' '] + ("123" + [' '] + "456")
  {
  }

  /** The command part of the end-to-end example. */
  lemma ExampleCommand(opsOrder: seq<string>, m: Message, gw: Gateway)
    requires m.author == "A" && m.channel == "general" && m.mentions == []
    requires gw.users == map["123" := "123"]
    ensures Command({"A"}, opsOrder, m, ["!op", "123", "456"], gw)
            == Outcome({"A", "123"}, [Send("general", "1 user added to operators.")])
  {
    var msg := ["!op", "123", "456"];
    assert msg[0] == "!op" && msg[0] != "!deop";
    assert msg[1..] == ["123", "456"];
    assert Resolved(["123", "456"], gw.users) == ["123"] by {
      assert ["123", "456"][..1] == ["123"];
      assert ["123"][..0] == [];
      assert "123" in gw.users && gw.users["123"] == "123";
      assert Resolved(["123"], gw.users) == ["123"];
      assert "456" !in gw.users;
    }
    var targets := Elems(["123"] + m.mentions);
    assert targets == {"123"} by {
      assert ["123"] + m.mentions == ["123"];
    }
    assert "123" != "A";
    assert Granted({"A"}, targets, false) == {"A", "123"};
    assert Flipped({"A"}, targets, false) == {"123"};
    OneUserAdded();
  }

  /** The end-to-end example: operator `A` sends `!op 123 456`, `123`
      resolves and `456` does not; one user is added and the reply says so. */
  lemma OpExample(procOrder: seq<string>, opsOrder: seq<string>, m: Message, gw: Gateway)
    requires m == Message("A", "general", "", "!op 123 456", [])
    requires gw == Gateway("bot", map["123" := "123"], {}, {})
    ensures Handle({"A"}, procOrder, opsOrder, m, gw)
            == Outcome({"A", "123"}, Runs(procOrder, ["!op", "123", "456"])
                                     + [Send("general", "1 user added to operators.")])
  {
    ExampleContent();
    SplitThree("!op", "123", "456");
    ExampleCommand(opsOrder, m, gw);
  }

  // ---------------------------------------------------------------------
  // ChanMentionToID

  /** `ChanMentionToID` deletes exactly one `<`, one `>` and one `#` where
      there is one, and nothing else. */
  lemma StripRemovesOneOfEach(mention: string)
    ensures multiset(StripMention(mention))
            == multiset(mention) - multiset{'<'} - multiset{'>'} - multiset{'#'}
    ensures multiset(StripMention(mention)) <= multiset(mention)
    ensures forall x :: x != '<' && x != '>' && x != '#' ==>
              multiset(StripMention(mention))[x] == multiset(mention)[x]
    ensures |mention| - 3 <= |StripMention(mention)|
  {
    var a := RemoveFirst(mention, '<');
    var b := RemoveFirst(a, '>');
    RemoveFirstMultiset(mention, '<');
    RemoveFirstMultiset(a, '>');
    RemoveFirstMultiset(b, '#');
  }

  /** A channel mention `<#id>` is unwrapped to `id`. */
  lemma {:induction false} StripChannelMention(id: string)
    requires '<' !in id && '>' !in id && '#' !in id
    ensures StripMention("<#" + id + ">") == id
  {
    var s := "<#" + id + ">";
    var t := "#" + id + ">";
    assert s[1..] == t;
    assert RemoveFirst(s, '<') == t;
    RemoveFirstAt(t, '>', |id| + 1);
    assert t[..|id| + 1] == "#" + id;
    assert t[|id| + 2..] == [];
    assert RemoveFirst(t, '>') == "#" + id;
    assert ("#" + id)[1..] == id;
  }

  /** The mention of a known channel resolves to its ID; a bare ID that
      names no channel is an error. */
  lemma ChanMentionOfChannel(id: string, gw: Gateway)
    requires '<' !in id && '>' !in id && '#' !in id
    ensures ChanMentionToID("<#" + id + ">", gw) == if id in gw.channels then Ok(id) else Err(ChannelNotFound(id))
  {
    StripChannelMention(id);
  }

  // ---------------------------------------------------------------------
  // LoadPlugin

  /** A descriptor `path?arg1?arg2…` built from `?`-free parts loads the
      plugin at `path` and passes it every part, path first. */
  lemma LoadPluginDescriptor(path: string, args: seq<string>, plugins: map<string, map<string, Symbol>>)
    requires '?' !in path && forall i :: 0 <= i < |args| ==> '?' !in args[i]
    requires path in plugins && BotSymbol in plugins[path] && plugins[path][BotSymbol] == BotImpl
    ensures LoadPlugin(Join([path] + args, '?'), plugins) == Ok(InitCall(path, [path] + args))
  {
    var parts := [path] + args;
    assert forall i :: 0 <= i < |parts| ==> '?' !in parts[i] by {
      forall i | 0 <= i < |parts|
        ensures '?' !in parts[i]
      {
        if i > 0 {
          assert parts[i] == args[i - 1];
        }
      }
    }
    SplitJoin(parts, '?');
    assert Split(Join(parts, '?'), '?')[0] == path;
  }

  /** The errors of `LoadPlugin`, in the order it checks for them. */
  lemma LoadPluginErrors(p: string, plugins: map<string, map<string, Symbol>>)
    ensures var path := Split(p, '?')[0];
            && (path !in plugins ==> LoadPlugin(p, plugins) == Err(OpenFailed(path)))
            && (path in plugins && BotSymbol !in plugins[path] ==>
                  LoadPlugin(p, plugins) == Err(SymbolNotFound(BotSymbol)))
            && (path in plugins && BotSymbol in plugins[path] && plugins[path][BotSymbol] != BotImpl ==>
                  LoadPlugin(p, plugins) == Err(UnexpectedType(UnexpectedTypeText)))
  {
  }
}
