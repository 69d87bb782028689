# disgobot core in Dafny

This project models the message-dispatch core of `disgobot`, a small Discord
bot library written in Go. It covers the library's package state and the
operations on it:

- `botOps`, the set of operator user IDs, with `IsOp`, `AddOp`, `RemOp` and
  the counting loop `opUsers`;
- `messageProcs`, the registry of plugin message procs, with `AddMessageProc`
  and `RemMessageProc`;
- `idsToUsers`, `ChanMentionToID`, and the `?`-separated descriptor that
  `LoadPlugin` splits;
- `showOps`, and the `messageCreate` handler with its built-in commands
  `!op`, `!deop`, `!delmsg`, `!ops` and `!quit`.

The package state is the class `Disgobot.Bot`. Its fields are `ops` for
`botOps`, `procs` for `messageProcs`, and `log`, the sequence of requests the
core made to the Discord session. Each such request is an `Effect`: running
a proc, sending a message, sending a private message, listing the operators,
deleting a message, or closing the session.

The session's answers to lookups are a `Discord.Gateway` value, fixed for the
handling of one message. It says which user IDs `Discord.User` resolves and to
whom, which channel IDs exist, and which users a private channel can be
opened to.

Go's map iteration order is unspecified. The methods that range over a map
return the order they used as a ghost value. The specification function
`Disgobot.Handle` takes those orders as parameters and gives the whole effect
of one message. `Bot.MessageCreate` is proved to follow it. Module
`DisgobotProperties` proves what the library promises about `Handle`, the
operator count, the reply text, channel mentions and plugin descriptors.

Modules:

- `GoStrings` (`gostrings.dfy`): `strings.Split` on one character, its inverse
  `Join`, `strings.Replace(s, c, "", 1)` and `%d`.
- `Discord` (`discord.dfy`): the message event, the gateway and the effects.
- `Disgobot` (`disgobot.dfy`): the package state and operations.
- `DisgobotProperties` (`properties.dfy`): the properties.

## Model

| member | source | states |
|---|---|---|
| `GoStrings.Split` | disgobot.go:192 | `strings.Split` on a one-character separator always yields at least one piece, one more than the number of separators, and no piece contains the separator |
| `GoStrings.JoinSplit` | disgobot.go:58 | joining the pieces of a split with the separator restores the original string |
| `GoStrings.SplitJoin` | disgobot.go:58 | splitting a join of separator-free pieces yields exactly those pieces |
| `GoStrings.RemoveFirst` | disgobot.go:163 | `strings.Replace(s, c, "", 1)` shortens the string by one exactly when `c` occurs in it, and returns it unchanged otherwise |
| `GoStrings.RemoveFirstMultiset` | disgobot.go:163 | the replace removes one occurrence of `c` when there is one, and no other character |
| `GoStrings.RemoveFirstAt` | disgobot.go:163 | the occurrence removed is the first one: the result is the string with position `i` cut out, where `i` is the first index of `c` |
| `GoStrings.Decimal` | disgobot.go:207 | `%d` of a count is a non-empty run of decimal digits with no leading zero |
| `GoStrings.DecimalRoundTrip` | disgobot.go:207 | reading the printed digits back gives the count |
| `Disgobot.ChanMentionToID` | disgobot.go:160-169 | the lookup succeeds exactly when the mention, with its first `<`, `>` and `#` removed, names an existing channel; on success the result is exactly the stripped text, an existing channel no longer than the mention, and on failure the error names the stripped text; a bare ID is returned unchanged when it names a channel and is an error otherwise |
| `Disgobot.LoadPlugin` | disgobot.go:57-74 | it succeeds exactly when the path before the first `?` opens and exports a `Bot` of the plugin interface; `BotInit` then receives every `?`-separated segment, the path first; the path contains no `?` and is a prefix of the descriptor; joining the arguments with `?` restores the descriptor |
| `Disgobot.Tokens` | disgobot.go:192 | a message always has a first token, so `msg[0]` is defined even for empty content |
| `Disgobot.GrantedChanges` | disgobot.go:114-128 | after `opUsers`, every listed user has the requested membership, every other user keeps theirs, and the users whose membership changed are exactly the ones counted |
| `Disgobot.OpStep` | disgobot.go:117-126 | one iteration adds (or removes) the user, and counts it exactly when its membership actually changes |
| `Disgobot.FlippedUnion` | disgobot.go:201-206 | running `opUsers` on the resolved ids and then on the mentions is the same as running it once on both, and the two counts add up to the count for both |
| `Disgobot.IdsToUsers` | disgobot.go:130-139 | the result is the resolved users of the ids, in order, skipping every id that does not resolve |
| `Disgobot.Bot.constructor` | disgobot.go:24-25 | the package starts with no operators and no procs |
| `Disgobot.Bot.AddMessageProc` | disgobot.go:78-83 | the proc is stored under a fresh key, which is returned; no other proc changes |
| `Disgobot.Bot.RemMessageProc` | disgobot.go:85-90 | exactly the proc with that key is gone, and removing an absent key changes nothing |
| `Disgobot.Bot.IsOp` | disgobot.go:93-102 | the result is membership in `botOps`; a non-operator also gets the private notice when a private channel to them opens, and nothing else is sent |
| `Disgobot.Bot.AddOp` | disgobot.go:105-107 | the user becomes an operator and nobody else changes |
| `Disgobot.Bot.RemOp` | disgobot.go:110-112 | the user stops being an operator and nobody else changes |
| `Disgobot.Bot.OpUsers` | disgobot.go:114-128 | the operator set becomes the old one with the listed users added (or removed, for `deop`), and the count is the number of distinct listed users whose membership changed |
| `Disgobot.Bot.RunProcs` | disgobot.go:193-195 | every registered proc is invoked exactly once with the tokens, in some enumeration of the keys |
| `Disgobot.Bot.ShowOps` | disgobot.go:171-183 | an operator who can be reached privately gets one listing naming every operator exactly once; a non-operator gets only the `IsOp` notice |
| `Disgobot.Bot.ChangeOps` | disgobot.go:197-218 | an operator's `!op`/`!deop` gives every resolved id and mentioned user the requested membership, and sends one reply to the channel with the number of changed users |
| `Disgobot.Bot.Interpret` | disgobot.go:196-234 | the command switch changes the operators and makes the requests that `Command` prescribes for the first token |
| `Disgobot.Bot.MessageCreate` | disgobot.go:185-235 | handling a message changes the operators and makes the requests that `Handle` prescribes, for some enumeration of the procs and of the operators |
| `DisgobotProperties.CountAtMostListed` | disgobot.go:114-128 | the count of `opUsers` never exceeds the number of users passed |
| `DisgobotProperties.NothingToChange` | disgobot.go:117-126 | granting users who are all operators already, or revoking users none of whom is one, counts 0 and changes nothing |
| `DisgobotProperties.OpUsersIdempotent` | disgobot.go:114-128 | a second `opUsers` with the same list and direction counts 0 and changes nothing |
| `DisgobotProperties.DeopCountsOnlyMembers` | disgobot.go:117-121 | revoking one operator and one non-operator reports one user |
| `DisgobotProperties.ResolvedMembers` | disgobot.go:130-139 | a user is in the result of `idsToUsers` exactly when some id resolves to it, and the result is never longer than the ids |
| `DisgobotProperties.ReplyWords` | disgobot.go:207-218 | the reply is five words separated by single spaces: the count, `user` or `users`, `added` or `removed`, `to` or `from`, and `operators.` |
| `DisgobotProperties.ReplyReadBack` | disgobot.go:207-218 | splitting the reply on spaces yields the count back, the plural form exactly when the count is not 1, and `removed` exactly for `!deop` |
| `DisgobotProperties.OneUserAdded` | disgobot.go:207 | the reply for one added user is `1 user added to operators.` |
| `DisgobotProperties.TokensRoundTrip` | disgobot.go:192 | there is one token more than there are spaces, and joining the tokens with single spaces restores the content |
| `DisgobotProperties.OwnMessageIgnored` | disgobot.go:189-191 | a message written by the bot itself changes nothing and causes no request, not even a proc run |
| `DisgobotProperties.ProcsRunFirst` | disgobot.go:192-195 | every other message runs each proc of the given order with the tokens, in that order, as the first effects, and no effect after them is a proc run |
| `DisgobotProperties.NonOperatorDenied` | disgobot.go:196-234 | a non-operator's `!op`, `!deop`, `!delmsg`, `!ops` or `!quit` leaves the operators unchanged; after the procs, the only request is the private notice, sent when a private channel to them opens |
| `DisgobotProperties.OnlyOperatorsChangeOperators` | disgobot.go:196-218 | the operator set changes only on an operator's `!op` or `!deop` |
| `DisgobotProperties.OperatorChangesOps` | disgobot.go:197-218 | on an operator's `!op`/`!deop`, every resolved id and mentioned user gets the requested membership and nobody else changes; the reply counts exactly the users whose membership changed, and that count is at most the resolved ids plus the mentions |
| `DisgobotProperties.CloseOnlyOnQuit` | disgobot.go:228-233 | the session is closed exactly when an operator sends `!quit` outside any guild, and then closing is the only command request |
| `DisgobotProperties.DeleteOnlyWithBothArguments` | disgobot.go:219-225 | a message is deleted only on an operator's `!delmsg` with at least a channel and a message ID, and then exactly message `msg[2]` in channel `msg[1]` is deleted; an operator's `!delmsg` with fewer arguments does nothing beyond the proc runs |
| `DisgobotProperties.OpExample` | disgobot.go:196-207 | operator `A` sending `!op 123 456`, where only `123` resolves, makes `123` an operator and replies `1 user added to operators.` |
| `DisgobotProperties.StripRemovesOneOfEach` | disgobot.go:163 | stripping a mention removes exactly one `<`, one `>` and one `#` from its characters, each only when present, and keeps every other character |
| `DisgobotProperties.StripChannelMention` | disgobot.go:160-163 | the mention `<#id>` of an ID without those characters is stripped to `id` |
| `DisgobotProperties.ChanMentionOfChannel` | disgobot.go:160-169 | `<#id>` resolves to `id` when the channel exists and is an error naming `id` otherwise |
| `DisgobotProperties.LoadPluginDescriptor` | disgobot.go:57-74 | a descriptor `path?a1?…` built from `?`-free parts, for a loadable plugin, calls `BotInit` with the path followed by the arguments |
| `DisgobotProperties.LoadPluginErrors` | disgobot.go:58-71 | the three failures are reported in the source's order: the path does not open, then the `Bot` symbol is missing, then the symbol has the wrong type |

## Left out

- The Discord session itself (`Run`, `discordgo.New`, `Open`, `AddHandler`): only what the core asks of it is modelled, as the effect log, and what it answers, as the `Gateway` value.
- Failures of `ChannelMessageSend` and `ChannelMessageDelete` are ignored by the source and are not modelled; every request is recorded.
- `UserIDtoMention` and `ChanIDtoMention` format mentions in the session's own syntax. So the `!ops` listing is the effect `ListOps(user, ids)`, with the ids in iteration order, and not the text `operators: <@…> …`.
- `plugin.Open` and `Lookup` are the map `plugins` from paths to exported symbols. The plugin's `BotInit` is the returned `InitCall`; what it does, including calling `AddMessageProc`, is the plugin's code.
- Message procs are foreign callbacks. A run is recorded as the effect `Run(key, tokens)`. A proc is assumed not to change `botOps` or `messageProcs` while the handler runs, and not to modify the message event (its author or mentions) or the token slice it is handed, which the command switch reads afterwards. A proc is also assumed to return normally: a proc that panics or blocks stops the later procs and the command switch, which the model does not capture.
- Disgobot.Bot.RunProcs: every proc runs once only when each proc returns; the source has no `recover` around the proc loop.
- DisgobotProperties.ProcsRunFirst: the runs followed by the command effects describe only procs that return normally.
- Disgobot.Bot.AddMessageProc: `xid.New()` is taken as a parameter, with the precondition that it is not already a key; the source relies on xid uniqueness for that.
- `Discord.Close()`, `fmt.Println("Quitting.")` and the send on `SignalChan` are the single effect `Close`.
- Disgobot.ChanMentionToID: the source returns `("", err)` on failure. The model returns an `Err` value that carries the stripped ID, and the session's own error text is not modelled.
- Map iteration order is not fixed. The handler is specified for every order, passed as ghost values.
- `Discord.User` is modelled by its answer only, a user ID for a resolvable id. The `*discordgo.User` objects in `m.Mentions` are their IDs.
- Concurrency: the session may deliver several `MessageCreate` events at once, and the source takes no lock around `botOps` and `messageProcs`, so such handlers race. The model handles one message at a time.
- `main.go` is not part of this model. It holds flag parsing, environment variables and a separate operator map that the library never reads.
