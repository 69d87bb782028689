/**
 The message-dispatch core of the `disgobot` package: the operator registry
 (`botOps`), the registry of plugin message procs (`messageProcs`), the
 built-in command interpreter (`messageCreate`) and its string helpers.

 The package-level state is the class `Bot`; the Discord session is a
 `Gateway` value (what lookups answer) plus the effect log `Bot.log` (what the
 core asked the session to do, in order). The whole effect of one message is
 specified by the function `Handle`, and `Bot.MessageCreate` is proved to
 follow it.
 */
module Disgobot {
  import opened GoStrings
  import opened Discord

  /** A registered message proc. The callback is plugin code, so the model
      keeps only a handle to it. */
  datatype Proc = Proc(name: string)

  /** The `error` values the core returns. */
  datatype Error =
    | ChannelNotFound(id: string)
    | OpenFailed(path: string)
    | SymbolNotFound(symbol: string)
    | UnexpectedType(text: string)

  datatype Result<T> = Ok(value: T) | Err(error: Error)

  /** The private notice `IsOp` sends to a non-operator. */
  const NotOperator := "You are not an operator of this bot."
  /** The symbol a plugin must export. */
  const BotSymbol := "Bot"
  const UnexpectedTypeText := "unexpected type from module symbol"

  // ---------------------------------------------------------------------
  // String helpers

  /** The `addS` table: the plural suffix. */
  function AddS(plural: bool): string
  {
    if plural then "s" else ""
  }

  /** The reply to `!op` (`deop` false) and `!deop` (`deop` true). */
  function OpReply(count: nat, deop: bool): string
  {
    Decimal(count) + " user" + AddS(count != 1)
    + (if deop then " removed from operators." else " added to operators.")
  }

  /** The text `ChanMentionToID` looks up: the mention with its first `<`,
      its first `>` and its first `#` removed. */
  function StripMention(mention: string): string
  {
    RemoveFirst(RemoveFirst(RemoveFirst(mention, '<'), '>'), '#')
  }

  /** `ChanMentionToID`: the channel ID in a channel mention, or the
      argument itself when it is already a bare ID; an error when the
      stripped text names no channel. */
  function ChanMentionToID(mention: string, gw: Gateway): (r: Result<string>)
    ensures r.Ok? <==> StripMention(mention) in gw.channels
    ensures r.Ok? ==> r.value == StripMention(mention) && r.value in gw.channels && |r.value| <= |mention|
    ensures r.Err? ==> r.error == ChannelNotFound(StripMention(mention))
    ensures '<' !in mention && '>' !in mention && '#' !in mention ==>
              r == if mention in gw.channels then Ok(mention) else Err(ChannelNotFound(mention))
  {
    var id := StripMention(mention);
    if id in gw.channels then Ok(id) else Err(ChannelNotFound(id))
  }

  // ---------------------------------------------------------------------
  // Plugin loading

  /** What a plugin exports under a name: a value whose dynamic type
      implements the `disgoBot` interface (`BotInit`, `BotExit`), or some
      other value. */
  datatype Symbol = BotImpl | OtherValue

  /** The call `bot.BotInit(args)` made on a loaded plugin. */
  datatype InitCall = InitCall(path: string, args: seq<string>)

  /** `LoadPlugin`: `plugins` maps each path that `plugin.Open` can open to
      the symbols the plugin exports. On success the result is the
      `BotInit` call made: the path is the text before the first `?`, and
      the arguments are all the `?`-separated segments, path included. */
  function LoadPlugin(p: string, plugins: map<string, map<string, Symbol>>): (r: Result<InitCall>)
    ensures r.Ok? ==> |r.value.args| >= 1 && r.value.args[0] == r.value.path
    ensures r.Ok? ==> Join(r.value.args, '?') == p
    ensures r.Ok? ==> '?' !in r.value.path && r.value.path <= p
    ensures r.Ok? ==> |r.value.args| == Count(p, '?') + 1
    ensures r.Ok? <==> var path := Split(p, '?')[0];
                       path in plugins && BotSymbol in plugins[path] && plugins[path][BotSymbol] == BotImpl
  {
    var plugOpts := Split(p, '?');
    var path := plugOpts[0];
    if path !in plugins then Err(OpenFailed(path))
    else if BotSymbol !in plugins[path] then Err(SymbolNotFound(BotSymbol))
    else if plugins[path][BotSymbol] != BotImpl then Err(UnexpectedType(UnexpectedTypeText))
    else
      JoinSplit(p, '?');
      assert |plugOpts| == 1 || p == path + ['?'] + Join(plugOpts[1..], '?');
      Ok(InitCall(path, plugOpts))
  }

  // ---------------------------------------------------------------------
  // Specification functions

  function Elems(s: seq<string>): set<string>
  {
    set x | x in s
  }

  /** The operator set after `opUsers` is given the users `who`. */
  function Granted(ops: set<string>, who: set<string>, deop: bool): set<string>
  {
    if deop then ops - who else ops + who
  }

  /** The users among `who` whose membership `opUsers` flips. */
  function Flipped(ops: set<string>, who: set<string>, deop: bool): set<string>
  {
    if deop then ops * who else who - ops
  }

  /** `idsToUsers`: the users the ids resolve to, in order, skipping the
      ids `Discord.User` does not know. */
  function Resolved(ids: seq<string>, users: map<string, string>): seq<string>
  {
    if ids == [] then []
    else
      var last := ids[|ids| - 1];
      Resolved(ids[..|ids| - 1], users) + (if last in users then [users[last]] else [])
  }

  /** What `IsOp(id)` sends: nothing for an operator, otherwise the notice,
      if a private channel to `id` opens. */
  function Deny(ops: set<string>, id: string, gw: Gateway): seq<Effect>
  {
    if id !in ops && id in gw.directs then [SendDirect(id, NotOperator)] else []
  }

  /** One invocation of each proc, in the given order. */
  function Runs(order: seq<string>, args: seq<string>): seq<Effect>
  {
    if order == [] then []
    else Runs(order[..|order| - 1], args) + [Run(order[|order| - 1], args)]
  }

  ghost predicate NoDup(s: seq<string>)
  {
    forall i, j :: 0 <= i < j < |s| ==> s[i] != s[j]
  }

  /** `order` visits every element of `keys` once: one order in which Go's
      `range` may visit a map whose keys are `keys`. */
  ghost predicate Enumerates(order: seq<string>, keys: set<string>)
  {
    NoDup(order) && Elems(order) == keys
  }

  /** Some enumeration of a finite set. */
  ghost function SomeOrder(keys: set<string>): (order: seq<string>)
    ensures Enumerates(order, keys)
    decreases keys
  {
    if keys == {} then []
    else
      var k :| k in keys;
      var rest := SomeOrder(keys - {k});
      assert Elems([k] + rest) == {k} + Elems(rest);
      [k] + rest
  }

  /** The space-free tokens of a message: `strings.Split(m.Content, " ")`. */
  function Tokens(m: Message): (msg: seq<string>)
    ensures |msg| >= 1
  {
    Split(m.content, ' ')
  }

  /** The operator set and the effects after one message. */
  datatype Outcome = Outcome(ops: set<string>, effects: seq<Effect>)

  /** The `switch msg[0]` of `messageCreate`: the operator set and the
      effects of the built-in command in `msg`, when `showOps` lists the
      operators in `opsOrder`. */
  function Command(ops: set<string>, opsOrder: seq<string>, m: Message, msg: seq<string>,
                   gw: Gateway): Outcome
    requires |msg| >= 1
  {
    var isOp := m.author in ops;
    var deny := Deny(ops, m.author, gw);
    if msg[0] == "!op" || msg[0] == "!deop" then
      if !isOp then Outcome(ops, deny)
      else
        var deop := msg[0] == "!deop";
        var targets := Elems(Resolved(msg[1..], gw.users) + m.mentions);
        Outcome(Granted(ops, targets, deop),
                [Send(m.channel, OpReply(|Flipped(ops, targets, deop)|, deop))])
    else if msg[0] == "!delmsg" then
      if !isOp then Outcome(ops, deny)
      else if |msg| > 2 then Outcome(ops, [Delete(msg[1], msg[2])])
      else Outcome(ops, [])
    else if msg[0] == "!ops" then
      if isOp && m.author in gw.directs then Outcome(ops, [ListOps(m.author, opsOrder)])
      else Outcome(ops, deny)
    else if msg[0] == "!quit" then
      if isOp && m.guild == "" then Outcome(ops, [Close])
      else Outcome(ops, deny)
    else Outcome(ops, [])
  }

  /** `messageCreate`: the operator set and the effects after handling `m`,
      when the procs are run in `procOrder` and `showOps` lists the operators
      in `opsOrder` (the two map iteration orders). */
  function Handle(ops: set<string>, procOrder: seq<string>, opsOrder: seq<string>,
                  m: Message, gw: Gateway): Outcome
  {
    if m.author == gw.self then Outcome(ops, [])
    else
      var msg := Tokens(m);
      var c := Command(ops, opsOrder, m, msg, gw);
      Outcome(c.ops, Runs(procOrder, msg) + c.effects)
  }

  // ---------------------------------------------------------------------
  // Lemmas the methods need

  lemma ElemsAppend(a: seq<string>, b: seq<string>)
    ensures Elems(a + b) == Elems(a) + Elems(b)
  {
  }

  /** Extending an enumeration by one new key. */
  lemma EnumerateOneMore(order: seq<string>, k: string, args: seq<string>)
    requires NoDup(order) && k !in Elems(order)
    ensures NoDup(order + [k]) && Elems(order + [k]) == Elems(order) + {k}
    ensures Runs(order + [k], args) == Runs(order, args) + [Run(k, args)]
  {
    ElemsAppend(order, [k]);
    assert (order + [k])[..|order|] == order;
  }

  /** Granting (or revoking) `a` and then `b` is granting `a + b`, and the
      two counts add up to the count for `a + b`. */
  lemma FlippedUnion(ops: set<string>, a: set<string>, b: set<string>, deop: bool)
    ensures Granted(Granted(ops, a, deop), b, deop) == Granted(ops, a + b, deop)
    ensures |Flipped(ops, a, deop)| + |Flipped(Granted(ops, a, deop), b, deop)|
            == |Flipped(ops, a + b, deop)|
  {
    var first := Flipped(ops, a, deop);
    var second := Flipped(Granted(ops, a, deop), b, deop);
    assert first !! second;
    assert Flipped(ops, a + b, deop) == first + second;
  }

  /** One iteration of `opUsers`: `u` is added (removed), and counted when
      it was not (was) an operator. */
  lemma OpStep(ops: set<string>, done: set<string>, u: string, deop: bool)
    ensures var before := Granted(ops, done, deop);
            && Granted(ops, done + {u}, deop) == (if deop then before - {u} else before + {u})
            && |Flipped(ops, done + {u}, deop)|
               == |Flipped(ops, done, deop)| + (if (u in before) == deop then 1 else 0)
  {
    FlippedUnion(ops, done, {u}, deop);
  }

  /** After `opUsers`, the listed users have the requested membership, the
      others keep theirs, and the users whose membership changed are
      exactly `Flipped`. */
  lemma GrantedChanges(ops: set<string>, who: set<string>, deop: bool)
    ensures forall u :: u in who ==> (u in Granted(ops, who, deop) <==> !deop)
    ensures forall x :: x !in who ==> (x in Granted(ops, who, deop) <==> x in ops)
    ensures (ops - Granted(ops, who, deop)) + (Granted(ops, who, deop) - ops) == Flipped(ops, who, deop)
  {
  }

  // ---------------------------------------------------------------------
  // `idsToUsers`

  method IdsToUsers(ids: seq<string>, gw: Gateway) returns (users: seq<string>)
    ensures users == Resolved(ids, gw.users)
  {
    users := [];
    for i := 0 to |ids|
      invariant users == Resolved(ids[..i], gw.users)
    {
      assert ids[..i + 1][..i] == ids[..i];
      if ids[i] in gw.users {
        users := users + [gw.users[ids[i]]];
      }
    }
    assert ids[..|ids|] == ids;
  }

  // ---------------------------------------------------------------------
  // The package state

  class Bot {
    /** `botOps`: the operators' user IDs. */
    var ops: set<string>
    /** `messageProcs`: the registered procs by key. */
    var procs: map<string, Proc>
    /** Everything the core has asked of the session so far. */
    var log: seq<Effect>

    constructor ()
      ensures ops == {} && procs == map[] && log == []
    {
      ops := {};
      procs := map[];
      log := [];
    }

    /** `AddMessageProc`: `key` is the fresh `xid` the call generates. */
    method AddMessageProc(p: Proc, key: string) returns (id: string)
      requires key !in procs
      modifies this`procs
      ensures id == key && id !in old(procs)
      ensures procs == old(procs)[id := p]
    {
      procs := procs[key := p];
      id := key;
    }

    /** `RemMessageProc`. */
    method RemMessageProc(id: string)
      modifies this`procs
      ensures procs == old(procs) - {id}
    {
      if id in procs {
        procs := procs - {id};
      }
    }

    /** `IsOp`: the membership test, which also tells a non-operator, in
        private, that they are not one. */
    method IsOp(id: string, gw: Gateway) returns (isOp: bool)
      modifies this`log
      ensures isOp <==> id in ops
      ensures log == old(log) + Deny(ops, id, gw)
    {
      if id in ops {
        return true;
      }
      if id in gw.directs {
        log := log + [SendDirect(id, NotOperator)];
      }
      return false;
    }

    /** `AddOp`. */
    method AddOp(id: string)
      modifies this`ops
      ensures ops == old(ops) + {id}
    {
      ops := ops + {id};
    }

    /** `RemOp`. */
    method RemOp(id: string)
      modifies this`ops
      ensures ops == old(ops) - {id}
    {
      ops := ops - {id};
    }

    /** `opUsers`: makes every listed user an operator (or a non-operator,
        when `deop`) and counts the users whose membership changed. */
    method OpUsers(users: seq<string>, deop: bool) returns (count: nat)
      modifies this`ops
      ensures ops == Granted(old(ops), Elems(users), deop)
      ensures count == |Flipped(old(ops), Elems(users), deop)|
    {
      ghost var ops0 := ops;
      ghost var done: set<string> := {};
      count := 0;
      for i := 0 to |users|
        invariant done == Elems(users[..i])
        invariant ops == Granted(ops0, done, deop)
        invariant count == |Flipped(ops0, done, deop)|
      {
        var u := users[i];
        assert Elems(users[..i + 1]) == done + {u} by {
          assert users[..i + 1] == users[..i] + [u];
          ElemsAppend(users[..i], [u]);
        }
        OpStep(ops0, done, u, deop);
        if u in ops && deop {
          ops := ops - {u};
          count := count + 1;
        } else if u !in ops && !deop {
          ops := ops + {u};
          count := count + 1;
        }
        done := done + {u};
      }
      assert users[..|users|] == users;
    }

    /** The `range messageProcs` loop: every registered proc is called once
        with the tokens, in an order the runtime chooses. */
    method RunProcs(args: seq<string>) returns (ghost order: seq<string>)
      modifies this`log
      ensures Enumerates(order, procs.Keys)
      ensures log == old(log) + Runs(order, args)
    {
      var pending := procs.Keys;
      order := [];
      while pending != {}
        invariant pending !! Elems(order) && pending + Elems(order) == procs.Keys
        invariant NoDup(order)
        invariant log == old(log) + Runs(order, args)
        decreases pending
      {
        var k :| k in pending;
        log := log + [Run(k, args)];
        EnumerateOneMore(order, k, args);
        order := order + [k];
        pending := pending - {k};
      }
    }

    /** `showOps`: an operator whose private channel opens gets one message
        listing every operator once, in map iteration order. */
    method ShowOps(id: string, gw: Gateway) returns (ghost listed: seq<string>)
      modifies this`log
      ensures Enumerates(listed, ops)
      ensures log == old(log) + (if id in ops && id in gw.directs then [ListOps(id, listed)] else Deny(ops, id, gw))
    {
      listed := SomeOrder(ops);
      var isOp := IsOp(id, gw);
      if !isOp || id !in gw.directs {
        return;
      }
      var pending := ops;
      var s := [];
      while pending != {}
        invariant pending !! Elems(s) && pending + Elems(s) == ops
        invariant NoDup(s)
        invariant log == old(log)
        decreases pending
      {
        var k :| k in pending;
        EnumerateOneMore(s, k, []);
        s := s + [k];
        pending := pending - {k};
      }
      listed := s;
      log := log + [ListOps(id, s)];
    }

    /** The `!op` / `!deop` case for an operator: resolve the explicit ids,
        change them and the mentioned users, and report the count. */
    method ChangeOps(m: Message, ids: seq<string>, deop: bool, gw: Gateway)
      modifies this`ops, this`log
      ensures ops == Granted(old(ops), Elems(Resolved(ids, gw.users) + m.mentions), deop)
      ensures log == old(log) + [Send(m.channel,
                OpReply(|Flipped(old(ops), Elems(Resolved(ids, gw.users) + m.mentions), deop)|, deop))]
    {
      ghost var ops0 := ops;
      var count := 0;
      var users := IdsToUsers(ids, gw);
      if |users| > 0 {
        var c := OpUsers(users, deop);
        count := count + c;
      } else {
        assert Elems(users) == {};
      }
      ghost var ops1 := ops;
      assert ops1 == Granted(ops0, Elems(users), deop) && count == |Flipped(ops0, Elems(users), deop)|;
      var c := OpUsers(m.mentions, deop);
      count := count + c;
      ghost var targets := Elems(Resolved(ids, gw.users) + m.mentions);
      assert ops == Granted(ops0, targets, deop) && count == |Flipped(ops0, targets, deop)| by {
        ElemsAppend(users, m.mentions);
        FlippedUnion(ops0, Elems(users), Elems(m.mentions), deop);
      }
      log := log + [Send(m.channel, OpReply(count, deop))];
    }

    /** The `switch msg[0]` of `messageCreate`. */
    method Interpret(m: Message, msg: seq<string>, gw: Gateway) returns (ghost opsOrder: seq<string>)
      requires |msg| >= 1
      modifies this`ops, this`log
      ensures Enumerates(opsOrder, old(ops))
      ensures ops == Command(old(ops), opsOrder, m, msg, gw).ops
      ensures log == old(log) + Command(old(ops), opsOrder, m, msg, gw).effects
    {
      opsOrder := SomeOrder(ops);
      if msg[0] == "!op" || msg[0] == "!deop" {
        var deop := msg[0] == "!deop";
        var isOp := IsOp(m.author, gw);
        if !isOp {
          return;
        }
        ChangeOps(m, msg[1..], deop, gw);
      } else if msg[0] == "!delmsg" {
        var isOp := IsOp(m.author, gw);
        if !isOp {
          return;
        }
        if |msg| > 2 {
          log := log + [Delete(msg[1], msg[2])];
        }
      } else if msg[0] == "!ops" {
        opsOrder := ShowOps(m.author, gw);
      } else if msg[0] == "!quit" {
        var isOp := IsOp(m.author, gw);
        if isOp && m.guild == "" {
          log := log + [Close];
        }
      } else {
        assert Command(ops, opsOrder, m, msg, gw) == Outcome(ops, []);
      }
    }

    /** `messageCreate`: ignore the bot's own messages, run every proc on the
        tokens, then interpret the command. */
    method MessageCreate(m: Message, gw: Gateway) returns (ghost procOrder: seq<string>, ghost opsOrder: seq<string>)
      modifies this`ops, this`log
      ensures Enumerates(procOrder, old(procs).Keys) && Enumerates(opsOrder, old(ops))
      ensures ops == Handle(old(ops), procOrder, opsOrder, m, gw).ops
      ensures log == old(log) + Handle(old(ops), procOrder, opsOrder, m, gw).effects
    {
      procOrder, opsOrder := SomeOrder(procs.Keys), SomeOrder(ops);
      if m.author == gw.self {
        return;
      }
      var msg := Split(m.content, ' ');
      procOrder := RunProcs(msg);
      ghost var log1 := log;
      opsOrder := Interpret(m, msg, gw);
      ghost var c := Command(old(ops), opsOrder, m, msg, gw);
      assert log == old(log) + (Runs(procOrder, msg) + c.effects) by {
        assert log == log1 + c.effects;
      }
    }
  }
}
