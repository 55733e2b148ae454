/** The values LAN discovery passes around: the advertisement a host
    broadcasts (GameBroadcastPacket) and a reply as the client receives it
    (DiscoveryInfo), together with the integer widths the HUD converts
    between. */
module DiscoveryTypes {

  /** C#'s `ushort`, the type of the Telepathy transport's port. */
  type UShort = x: int | 0 <= x < 0x1_0000

  /** C#'s `int`, the type assumed for the packet's port field. */
  type Int32 = x: int | -0x8000_0000 <= x < 0x8000_0000

  /** The advertisement a host broadcasts. */
  datatype GameBroadcastPacket = GameBroadcastPacket(
    serverAddress: string,  // the address the host believes it has (display only)
    port: Int32,            // the game-connection port
    hostName: string,       // display label
    serverGUID: string)     // stable identity of the advertising server

  /** One reply: the address of the endpoint the datagram arrived from and
      the decoded advertisement it carried. */
  datatype DiscoveryInfo = DiscoveryInfo(endPointAddress: string, unpackedData: GameBroadcastPacket)

  /** The identity a reply is filed under. */
  function Guid(info: DiscoveryInfo): string {
    info.unpackedData.serverGUID
  }

  /** The unchecked C# conversion `(ushort) x`: the low 16 bits of x, that is,
      the one ushort congruent to x modulo 2^16. Values already in range are
      kept as they are; small negative values wrap
      around (-1 becomes 65535). */
  function ToUShort(x: Int32): (r: UShort)
    ensures (x - r) % 0x1_0000 == 0
    ensures 0 <= x < 0x1_0000 ==> r == x
    ensures -0x1_0000 <= x < 0 ==> r == x + 0x1_0000
  {
    x % 0x1_0000
  }
}
