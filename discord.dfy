/**
 What the bot core sees of the Discord session: the inbound message event,
 the answers the gateway gives to lookups (which ids resolve), and the
 outbound requests the core makes, recorded in order as effects.
 */
module Discord {

  /** A `MessageCreate` event. `guild` is empty for a direct message;
      `mentions` are the IDs of the users the message mentions. */
  datatype Message = Message(
    author: string,
    channel: string,
    guild: string,
    content: string,
    mentions: seq<string>)

  /** The answers of the live session, fixed for the handling of one message.
      - `self`: the bot's own user ID (`s.State.User.ID`);
      - `users`: `Discord.User(id)` succeeds exactly for the keys, and yields
        the user whose ID is the value;
      - `channels`: `Discord.Channel(id)` succeeds exactly for these ids;
      - `directs`: `UserChannelCreate(id)` succeeds exactly for these users. */
  datatype Gateway = Gateway(
    self: string,
    users: map<string, string>,
    channels: set<string>,
    directs: set<string>)

  /** One outbound request, or one invocation of a registered message proc. */
  datatype Effect =
    | Run(proc: string, args: seq<string>)      // messageProcs[proc](m, args)
    | Send(channel: string, text: string)       // ChannelMessageSend to a channel
    | SendDirect(user: string, text: string)    // ChannelMessageSend to the user's private channel
    | ListOps(user: string, listed: seq<string>) // showOps's private reply, one entry per operator
    | Delete(channel: string, message: string)  // ChannelMessageDelete
    | Close                                     // Discord.Close and the kill signal
}
