/** The DeathTracker plugin: a death-count dictionary and a ban list that
    the host's event hooks and the chat and console commands update in
    place. Everything the plugin asks of the outside world (the economics
    plugin's withdrawal, banning, kicking and messaging a player, console
    output) is returned to the caller; the withdrawal's outcome, the
    caller's connection and the command arguments come in as parameters. */
module DeathTrackerPlugin {
  import opened Int32
  import opened DeathTrackerSpec

  class DeathTracker {
    var configData: ConfigData
    var deathCounts: map<string, int32>
    var bannedPlayers: seq<string>

    /** What the data files hold: the state as of the last flush. */
    ghost var savedCounts: map<string, int32>
    ghost var savedBans: seq<string>

    /** Plugin start-up: the configuration and the two data files, as read
        from storage, become the in-memory state. */
    constructor Init(config: ConfigData, storedCounts: map<string, int32>, storedBans: seq<string>)
      ensures configData == config
      ensures deathCounts == storedCounts && bannedPlayers == storedBans
      ensures savedCounts == storedCounts && savedBans == storedBans
    {
      configData := config;
      deathCounts := storedCounts;
      bannedPlayers := storedBans;
      savedCounts := storedCounts;
      savedBans := storedBans;
    }

    /** The host's request for a fresh configuration file. */
    method LoadDefaultConfig()
      modifies this`configData
      ensures configData == DefaultConfig
      ensures configData.defaultLives == 3 && configData.penaltyAmount == 100.0
    {
      configData := DefaultConfig;
    }

    /** Writes both collections to their data files. */
    method SaveData()
      modifies this`savedCounts, this`savedBans
      ensures savedCounts == deathCounts && savedBans == bannedPlayers
    {
      savedCounts := deathCounts;
      savedBans := bannedPlayers;
    }

    method OnServerSave()
      modifies this`savedCounts, this`savedBans
      ensures savedCounts == deathCounts && savedBans == bannedPlayers
    {
      SaveData();
    }

    method OnServerShutdown()
      modifies this`savedCounts, this`savedBans
      ensures savedCounts == deathCounts && savedBans == bannedPlayers
    {
      SaveData();
    }

    method Unload()
      modifies this`savedCounts, this`savedBans
      ensures savedCounts == deathCounts && savedBans == bannedPlayers
    {
      SaveData();
    }

    /** A player died: count it, enforce the limit, flush. `completed` is
        false when the handler throws because it needs the economics plugin
        and that is not loaded: the count has then been incremented, but
        nothing is emitted, nobody is banned and nothing is flushed. */
    method OnEntityDeath(playerId: string, economics: EconomicsReply)
      returns (actions: seq<HostAction>, completed: bool)
      modifies this`deathCounts, this`bannedPlayers, this`savedCounts, this`savedBans
      ensures deathCounts == RecordDeath(old(deathCounts), playerId)
      ensures DeathsOf(old(deathCounts), playerId) as int < MAX ==>
                deathCounts[playerId] as int == DeathsOf(old(deathCounts), playerId) as int + 1
      ensures completed <==> !Aborts(configData, deathCounts[playerId], economics)
      ensures actions == DeathActions(configData, playerId, deathCounts[playerId], economics)
      ensures bannedPlayers ==
                if Excludes(configData, deathCounts[playerId], economics)
                then old(bannedPlayers) + [playerId]
                else old(bannedPlayers)
      ensures completed ==> savedCounts == deathCounts && savedBans == bannedPlayers
      ensures !completed ==> savedCounts == old(savedCounts) && savedBans == old(savedBans)
    {
      if playerId !in deathCounts {
        deathCounts := deathCounts[playerId := 0];
      }
      deathCounts := deathCounts[playerId := Inc(deathCounts[playerId])];

      actions := [];
      if deathCounts[playerId] > configData.defaultLives {
        match economics
        case NotLoaded =>
          // The call through the null plugin reference throws here.
          return [], false;
        case Withdrawn =>
          actions := [Withdraw(playerId, configData.penaltyAmount),
                      Message(PenaltyNotice(configData.penaltyAmount))];
        case Refused =>
          bannedPlayers := bannedPlayers + [playerId];
          actions := [Withdraw(playerId, configData.penaltyAmount),
                      Ban(configData.banMessage), Kick(configData.banMessage),
                      Message(TextNotice(configData.banMessage))];
      }

      SaveData();
      completed := true;
    }

    /** The `lives` chat command. */
    method CmdLives(playerId: string) returns (reply: Notice)
      ensures reply == LivesLeftNotice(LivesOf(configData, deathCounts, playerId))
      ensures playerId !in deathCounts ==> reply.lives == configData.defaultLives
    {
      var deaths: int32 := if playerId in deathCounts then deathCounts[playerId] else 0;
      var livesLeft := Sub(configData.defaultLives, deaths);
      reply := LivesLeftNotice(livesLeft);
    }

    /** The `deaths` chat command. */
    method CmdDeaths(playerId: string) returns (reply: Notice)
      ensures playerId in deathCounts ==> reply == DeathCountNotice(deathCounts[playerId])
      ensures playerId !in deathCounts ==> reply == DeathCountNotice(0)
    {
      var deaths: int32 := if playerId in deathCounts then deathCounts[playerId] else 0;
      reply := DeathCountNotice(deaths);
    }

    /** The `banlist` console command: the lines it prints. */
    method CmdBanList(caller: Caller) returns (lines: seq<string>)
      ensures !MayAdminister(caller) ==> lines == []
      ensures MayAdminister(caller) && bannedPlayers == [] ==> lines == [NoBansLine]
      ensures MayAdminister(caller) && bannedPlayers != [] ==> lines == [BannedHeaderLine] + bannedPlayers
    {
      if !MayAdminister(caller) {
        return [];
      }
      if |bannedPlayers| == 0 {
        lines := [NoBansLine];
      } else {
        lines := [BannedHeaderLine];
        for i := 0 to |bannedPlayers|
          invariant lines == [BannedHeaderLine] + bannedPlayers[..i]
        {
          lines := lines + [bannedPlayers[i]];
        }
      }
    }

    /** The `wipebanlist` console command. */
    method CmdWipeBanList(caller: Caller) returns (lines: seq<string>)
      modifies this`bannedPlayers
      ensures MayAdminister(caller) ==> bannedPlayers == [] && lines == [BanListWipedLine]
      ensures !MayAdminister(caller) ==> bannedPlayers == old(bannedPlayers) && lines == []
    {
      if !MayAdminister(caller) {
        return [];
      }
      bannedPlayers := [];
      lines := [BanListWipedLine];
    }

    /** The `unbanplayer <playerId>` console command. */
    method CmdUnbanPlayer(caller: Caller, args: seq<string>) returns (lines: seq<string>)
      modifies this`bannedPlayers
      ensures !MayAdminister(caller) ==> bannedPlayers == old(bannedPlayers) && lines == []
      ensures MayAdminister(caller) && |args| == 0 ==>
                bannedPlayers == old(bannedPlayers) && lines == [UnbanUsageLine]
      ensures MayAdminister(caller) && |args| > 0 && args[0] in old(bannedPlayers) ==>
                bannedPlayers == RemoveFirst(old(bannedPlayers), args[0]) &&
                multiset(bannedPlayers) == multiset(old(bannedPlayers)) - multiset{args[0]} &&
                lines == [UnbannedLine(args[0])]
      ensures MayAdminister(caller) && |args| > 0 && args[0] !in old(bannedPlayers) ==>
                bannedPlayers == old(bannedPlayers) && lines == [NotBannedLine(args[0])]
    {
      if !MayAdminister(caller) {
        return [];
      }
      if |args| < 1 {
        return [UnbanUsageLine];
      }
      var playerId := args[0];
      if playerId in bannedPlayers {
        bannedPlayers := RemoveFirst(bannedPlayers, playerId);
        lines := [UnbannedLine(playerId)];
      } else {
        lines := [NotBannedLine(playerId)];
      }
    }

    /** The login hook: a rejection reason for a banned id, none otherwise. */
    method CanUserLogin(name: string, id: string) returns (rejection: Option<string>)
      ensures rejection.Some? <==> id in bannedPlayers
      ensures rejection.Some? ==> rejection.value == configData.banMessage
    {
      if id in bannedPlayers {
        return Some(configData.banMessage);
      }
      return None;
    }

    /** The `resetdeaths` console command. */
    method CmdResetDeaths(caller: Caller) returns (lines: seq<string>)
      modifies this`deathCounts
      ensures MayAdminister(caller) ==> deathCounts == map[] && lines == [DeathsResetLine]
      ensures !MayAdminister(caller) ==> deathCounts == old(deathCounts) && lines == []
    {
      if !MayAdminister(caller) {
        return [];
      }
      deathCounts := map[];
      lines := [DeathsResetLine];
    }

    /** The economics plugin's data-wipe hook; it has no caller to check. */
    method OnEconomicsDataWiped() returns (lines: seq<string>)
      modifies this`deathCounts
      ensures deathCounts == map[] && lines == [EconomicsWipeLine]
    {
      deathCounts := map[];
      lines := [EconomicsWipeLine];
    }
  }
}
