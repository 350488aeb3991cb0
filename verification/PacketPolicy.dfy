/** Who may send which packet to the server once B plays. */
module PacketPolicy {
  const GAME_PREFIX := "net.minecraft.network.protocol.game."

  predicate IsGamePacket(name: string) {
    GAME_PREFIX <= name
  }

  predicate IsOwnedByA(name: string) {
    || name == GAME_PREFIX + "ServerboundKeepAlivePacket"
    || name == GAME_PREFIX + "ServerboundCustomPayloadPacket"
  }

  predicate AllowFromA(name: string, bActive: bool) {
    !bActive || !IsGamePacket(name) || IsOwnedByA(name)
  }

  predicate AllowFromB(name: string) {
    IsGamePacket(name) && !IsOwnedByA(name)
  }

  lemma SameSuffix(prefix: string, x: string, y: string)
    ensures prefix + x == prefix + y <==> x == y
    ensures prefix <= prefix + x
  {
    assert (prefix + x)[|prefix|..] == x && (prefix + y)[|prefix|..] == y;
  }

  // A's heartbeat and mod handshake stay with A; B may send every other packet of the game protocol,
  // and no other packets.
  lemma BSendsTheRest(suffix: string, other: string)
    ensures AllowFromB(GAME_PREFIX + suffix) <==>
            suffix != "ServerboundKeepAlivePacket" && suffix != "ServerboundCustomPayloadPacket"
    ensures AllowFromB(other) ==> GAME_PREFIX <= other
  {
    SameSuffix(GAME_PREFIX, suffix, "ServerboundKeepAlivePacket");
    SameSuffix(GAME_PREFIX, suffix, "ServerboundCustomPayloadPacket");
  }
}
