/** What DisplayServers prints. For every registry entry it starts a line
    with "Gameinfo: " and the reply's endpoint address, then, once per header
    column after the first, appends a space and the host name and prints the
    line so far. The functions here give that text for a chosen enumeration
    order of the registry's keys. */
module Display {
  import opened DiscoveryTypes

  const LinePrefix: string := "Gameinfo: "

  /** s written n times. */
  function Repeat(s: string, n: nat): string {
    if n == 0 then "" else Repeat(s, n - 1) + s
  }

  /** The line for `info` after the host name has been appended `appended` times. */
  function HostLine(info: DiscoveryInfo, appended: nat): string {
    LinePrefix + info.endPointAddress + Repeat(" " + info.unpackedData.hostName, appended)
  }

  /** The inner loop runs for i = 1 .. headerCount - 1. */
  function LinesPerServer(headerCount: nat): nat {
    if headerCount == 0 then 0 else headerCount - 1
  }

  /** The lines printed for one entry: the k-th has the host name appended k + 1 times. */
  function ServerLines(info: DiscoveryInfo, headerCount: nat): seq<string> {
    seq(LinesPerServer(headerCount), k requires 0 <= k => HostLine(info, k + 1))
  }

  /** `order` lists every key of the map exactly once. */
  ghost predicate Enumerates(order: seq<string>, keys: set<string>) {
    && (forall i, j :: 0 <= i < j < |order| ==> order[i] != order[j])
    && (forall i :: 0 <= i < |order| ==> order[i] in keys)
    && (forall k :: k in keys ==> k in order)
  }

  /** All lines printed when the entries are visited in `order`. */
  function DisplayText(reg: map<string, DiscoveryInfo>, order: seq<string>, headerCount: nat): seq<string>
    requires forall i :: 0 <= i < |order| ==> order[i] in reg
  {
    if order == [] then []
    else DisplayText(reg, order[..|order| - 1], headerCount) + ServerLines(reg[order[|order| - 1]], headerCount)
  }

  /** An enumeration without repeats is exactly as long as the key set. */
  lemma {:induction false} EnumerationLength(order: seq<string>, keys: set<string>)
    requires Enumerates(order, keys)
    ensures |order| == |keys|
  {
    if order != [] {
      var n := |order| - 1;
      var prefix := order[..n];
      assert Enumerates(prefix, keys - {order[n]}) by {
        forall i | 0 <= i < |prefix|
          ensures prefix[i] in keys - {order[n]}
        {
          assert prefix[i] == order[i];
        }
        forall k | k in keys - {order[n]}
          ensures k in prefix
        {
          var i :| 0 <= i < |order| && order[i] == k;
          assert prefix[i] == order[i];
        }
      }
      EnumerationLength(prefix, keys - {order[n]});
    } else {
      assert forall k :: k !in keys;
      assert keys == {};
    }
  }

  /** Each visited entry contributes exactly LinesPerServer(headerCount) lines. */
  lemma {:induction false} DisplayTextLength(reg: map<string, DiscoveryInfo>, order: seq<string>, headerCount: nat)
    requires forall i :: 0 <= i < |order| ==> order[i] in reg
    ensures |DisplayText(reg, order, headerCount)| == |order| * LinesPerServer(headerCount)
  {
    if order != [] {
      var n := |order| - 1;
      DisplayTextLength(reg, order[..n], headerCount);
      assert |order| * LinesPerServer(headerCount) == n * LinesPerServer(headerCount) + LinesPerServer(headerCount);
    }
  }

  /** With the HUD's two header columns every entry prints one line,
      "Gameinfo: " + endpoint address + " " + host name, in visiting order. */
  lemma {:induction false} DisplayTextTwoColumns(reg: map<string, DiscoveryInfo>, order: seq<string>)
    requires forall i :: 0 <= i < |order| ==> order[i] in reg
    ensures |DisplayText(reg, order, 2)| == |order|
    ensures forall i :: 0 <= i < |order| ==>
      DisplayText(reg, order, 2)[i]
        == LinePrefix + reg[order[i]].endPointAddress + " " + reg[order[i]].unpackedData.hostName
  {
    if order != [] {
      var n := |order| - 1;
      var prefix := order[..n];
      assert forall i :: 0 <= i < n ==> prefix[i] == order[i];
      DisplayTextTwoColumns(reg, prefix);
      var info := reg[order[n]];
      assert Repeat(" " + info.unpackedData.hostName, 1) == " " + info.unpackedData.hostName;
      assert HostLine(info, 1) == LinePrefix + info.endPointAddress + " " + info.unpackedData.hostName;
      assert ServerLines(info, 2) == [HostLine(info, 1)];
    }
  }
}
