/**
 * Properties of `handleSettings`: the host gate, what each key does, and
 * that the settings a newcomer is sent read back as the room's flags.
 */
module SettingsProofs {
  import opened Common
  import opened JavaText
  import opened Sessions
  import opened GameRules

  /** The two rooms agree on everything but, possibly, the three flags. */
  predicate SameRoomExceptFlags(a: RoomState, b: RoomState)
  {
    a.(enableRps5 := b.enableRps5, enableRps5Final3 := b.enableRps5Final3, enableCooldown := b.enableCooldown) == b
  }

  /**
   * A member other than the host is turned away, and nothing changes,
   * unless the raw command starts with "away" or "spectator".
   */
  lemma NonHostIsRefused(st: RoomState, s: nat, command: string)
    requires s < |st.clients| && st.clients[s].clientId != st.hostId
    requires !StartsWith(command, "away") && !StartsWith(command, "spectator")
    ensures SettingsResultOf(st, s, command) == NotHost
    ensures SettingsState(st, s, command) == st
  {
  }

  /**
   * A flag key with a value sets exactly that flag, on exactly when the
   * value is "on" or "true" in any case; everything else is kept.
   */
  lemma FlagCommandSetsFlag(st: RoomState, s: nat, command: string)
    requires s < |st.clients| && SettingsResultOf(st, s, command).FlagSet?
    ensures var parts := Split(command);
      var key := SettingsResultOf(st, s, command).key;
      var st1 := SettingsState(st, s, command);
      && |parts| >= 2 && key == ToLower(parts[0])
      && (key == "rps5" ==> st1 == st.(enableRps5 := IsOn(parts[1])))
      && (key == "rps5_final3" ==> st1 == st.(enableRps5Final3 := IsOn(parts[1])))
      && (key == "cooldown" ==> st1 == st.(enableCooldown := IsOn(parts[1])))
      && (key == "rps5" || key == "rps5_final3" || key == "cooldown")
  {
  }

  /**
   * Every outcome other than a flag or an away change leaves the room as it
   * was: the host notice, a command with no parts, a flag key without a
   * value and an unknown key.
   */
  lemma OnlyFlagsAndAwayChange(st: RoomState, s: nat, command: string)
    requires s < |st.clients|
    ensures var r := SettingsResultOf(st, s, command);
      !r.FlagSet? && !r.AwaySet? ==> SettingsState(st, s, command) == st
    ensures SettingsResultOf(st, s, command).FlagSet? ==> SameRoomExceptFlags(st, SettingsState(st, s, command))
  {
  }

  /** A bare "away" from any member toggles that member's away flag and nothing else. */
  lemma BareAwayToggles(st: RoomState, s: nat)
    requires s < |st.clients|
    ensures SettingsResultOf(st, s, "away") == AwaySet(!st.clients[s].away)
    ensures SettingsState(st, s, "away") == st.(clients := st.clients[s := st.clients[s].(away := !st.clients[s].away)])
  {
    assert StartsWith("away", "away");
    assert Split("away") == ["away"];
    assert ToLower("away") == "away";
  }

  /** "away on" sets the sender away, whoever sends it. */
  lemma AwayOnSetsAway(st: RoomState, s: nat)
    requires s < |st.clients|
    ensures SettingsResultOf(st, s, "away on") == AwaySet(true)
  {
    assert StartsWith("away on", "away");
    SplitTwoWords("away", "on");
    assert "away" + " " + "on" == "away on";
    assert ToLower("away") == "away";
    assert ToLower("on") == "on";
  }

  /**
   * The host gate compares the raw command case-sensitively while the key
   * switch lower-cases it: "AWAY" from a member other than the host is
   * refused.
   */
  lemma GateIsCaseSensitive(st: RoomState, s: nat)
    requires s < |st.clients| && st.clients[s].clientId != st.hostId
    ensures SettingsResultOf(st, s, "AWAY") == NotHost
  {
    assert "AWAY"[..4][0] != "away"[0];
    assert |"AWAY"| < |"spectator"|;
  }

  /**
   * "spectator" passes the host gate but has no case in the key switch:
   * any member gets the unknown-setting notice and nothing changes.
   */
  lemma SpectatorIsUnknownKey(st: RoomState, s: nat)
    requires s < |st.clients|
    ensures SettingsResultOf(st, s, "spectator") == UnknownKey("spectator")
    ensures SettingsState(st, s, "spectator") == st
  {
    assert StartsWith("spectator", "spectator");
    assert Split("spectator") == ["spectator"];
    assert ToLower("spectator") == "spectator";
  }

  /** "on" and "off" as written on the wire read back as the flag they encode. */
  lemma OnOffReadsBack(flag: bool)
    ensures IsOn(OnOff(flag)) == flag
  {
    assert ToLower("on") == "on" && ToLower("true") == "true" && ToLower("off") == "off";
  }

  /**
   * The settings records a newcomer is sent, replayed by the host as
   * commands in any room, set that room's flags to the ones they were
   * taken from.
   */
  lemma SettingsSyncReplays(st: RoomState, other: RoomState, host: nat)
    requires host < |other.clients| && other.clients[host].clientId == other.hostId
    ensures var ps := SettingsSync(st);
      && SettingsState(other, host, ps[0].message.value) == other.(enableRps5 := st.enableRps5)
      && SettingsState(other, host, ps[1].message.value) == other.(enableRps5Final3 := st.enableRps5Final3)
      && SettingsState(other, host, ps[2].message.value) == other.(enableCooldown := st.enableCooldown)
  {
    ReplayFlag(other, host, "rps5", st.enableRps5);
    ReplayFlag(other, host, "rps5_final3", st.enableRps5Final3);
    ReplayFlag(other, host, "cooldown", st.enableCooldown);
  }

  lemma ReplayFlag(st: RoomState, host: nat, key: string, flag: bool)
    requires host < |st.clients| && st.clients[host].clientId == st.hostId
    requires key == "rps5" || key == "rps5_final3" || key == "cooldown"
    ensures SettingsState(st, host, SettingsPayload(key, OnOff(flag)).message.value) ==
      if key == "rps5" then st.(enableRps5 := flag)
      else if key == "rps5_final3" then st.(enableRps5Final3 := flag)
      else st.(enableCooldown := flag)
  {
    ReplayFlagResult(st, host, key, flag);
  }

  lemma ReplayFlagResult(st: RoomState, host: nat, key: string, flag: bool)
    requires host < |st.clients| && st.clients[host].clientId == st.hostId
    requires key == "rps5" || key == "rps5_final3" || key == "cooldown"
    ensures SettingsResultOf(st, host, SettingsPayload(key, OnOff(flag)).message.value) == FlagSet(key, flag)
  {
    FlagKeyIsPlain(key);
    OnOffIsWord(flag);
    SplitTwoWords(key, OnOff(flag));
    OnOffReadsBack(flag);
    assert SettingResult(st, host, [key, OnOff(flag)]) == FlagSet(key, flag);
  }

  lemma FlagKeyIsPlain(key: string)
    requires key == "rps5" || key == "rps5_final3" || key == "cooldown"
    ensures ToLower(key) == key && ' ' !in key
  {
  }

  lemma OnOffIsWord(flag: bool)
    ensures ' ' !in OnOff(flag) && OnOff(flag) != ""
  {
  }
}
