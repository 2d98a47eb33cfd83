/** Client code of the plugin model that walks through the limited-lives
    scenarios using nothing but the contracts of the handlers. */
module Scenarios {
  import opened DeathTrackerSpec
  import opened DeathTrackerPlugin

  /** Three free deaths, then a successful withdrawal on the fourth: the
      player is penalised and never banned. */
  method PenaltyPaid(x: string) {
    var t := new DeathTracker.Init(DefaultConfig, map[], []);
    var a, done := t.OnEntityDeath(x, Withdrawn);
    assert a == [];
    a, done := t.OnEntityDeath(x, Refused);
    assert a == [];
    a, done := t.OnEntityDeath(x, Refused);
    assert a == [] && t.deathCounts[x] == 3;
    a, done := t.OnEntityDeath(x, Withdrawn);
    assert a == [Withdraw(x, 100.0), Message(PenaltyNotice(100.0))];
    assert t.bannedPlayers == [];
    var reply := t.CmdLives(x);
    assert reply == LivesLeftNotice(-1);
  }

  /** A refused withdrawal on the fourth death bans, kicks and rejects the
      player, and the ban is flushed. */
  method BannedOnFourthDeath(y: string) {
    var t := new DeathTracker.Init(DefaultConfig, map[], []);
    var a, done := t.OnEntityDeath(y, Withdrawn);
    a, done := t.OnEntityDeath(y, Withdrawn);
    a, done := t.OnEntityDeath(y, Withdrawn);
    assert t.deathCounts[y] == 3 && t.bannedPlayers == [];
    a, done := t.OnEntityDeath(y, Refused);
    assert Kick(DefaultConfig.banMessage) in a;
    assert t.bannedPlayers == [y] && t.savedBans == [y];
    var gate := t.CanUserLogin("name", y);
    assert gate == Some(DefaultConfig.banMessage);
  }

  /** Starting from the state a fourth-death ban leaves: after an unban the
      plugin's login hook no longer rejects the player, their count is
      untouched, and the next unpaid death bans them again. The host-level
      ban the handler asked for is not tracked here. */
  method UnbanThenBanAgain(y: string) {
    var t := new DeathTracker.Init(DefaultConfig, map[y := 4], [y]);
    var lines := t.CmdUnbanPlayer(Console, [y]);
    assert lines == [UnbannedLine(y)] && t.bannedPlayers == [];
    var gate := t.CanUserLogin("name", y);
    assert gate == None;
    var deaths := t.CmdDeaths(y);
    assert deaths == DeathCountNotice(4);
    assert t.savedBans == [y];

    var a, done := t.OnEntityDeath(y, Refused);
    assert t.deathCounts[y] == 5 && t.bannedPlayers == [y];
  }

  /** Two unpaid deaths put the id on the list twice; one unban reports
      success while the login gate still rejects the player. */
  method DuplicateBanOutlivesUnban(z: string) {
    var t := new DeathTracker.Init(ConfigData(0, 100.0, "banned"), map[], []);
    var a, done := t.OnEntityDeath(z, Refused);
    a, done := t.OnEntityDeath(z, Refused);
    assert t.bannedPlayers == [z, z];
    var lines := t.CmdUnbanPlayer(Client(2), [z]);
    assert lines == [UnbannedLine(z)];
    var gate := t.CanUserLogin("name", z);
    assert gate == Some("banned");
  }

  /** Both resets forget every count and keep every ban; a client below
      level 2 changes nothing. */
  method Resets(x: string, y: string) {
    var t := new DeathTracker.Init(DefaultConfig, map[x := 2, y := 7], [y]);
    var lines := t.CmdResetDeaths(Client(1));
    assert lines == [] && t.deathCounts[y] == 7;
    lines := t.CmdResetDeaths(Client(2));
    var deaths := t.CmdDeaths(y);
    assert deaths == DeathCountNotice(0) && t.bannedPlayers == [y];

    t := new DeathTracker.Init(DefaultConfig, map[x := 2], [y]);
    lines := t.OnEconomicsDataWiped();
    var reply := t.CmdLives(x);
    assert reply == LivesLeftNotice(3) && t.bannedPlayers == [y];
    assert t.savedCounts == map[x := 2];
  }

  /** With the economics plugin not loaded, the fourth death throws after
      counting: nothing is emitted, nobody is banned, and the data files
      still hold the state of the third death. */
  method EconomicsMissing(x: string) {
    var t := new DeathTracker.Init(DefaultConfig, map[], []);
    var a, done := t.OnEntityDeath(x, NotLoaded);
    assert done && a == [] && t.savedCounts[x] == 1;
    a, done := t.OnEntityDeath(x, NotLoaded);
    a, done := t.OnEntityDeath(x, NotLoaded);
    assert t.savedCounts == map[x := 3];
    a, done := t.OnEntityDeath(x, NotLoaded);
    assert !done && a == [] && t.bannedPlayers == [];
    assert t.deathCounts[x] == 4 && t.savedCounts == map[x := 3];
  }
}
