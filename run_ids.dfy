/** Run identifiers: the canonical text of a java.util.UUID. */
module RunIds {
  import Text
  import Wrappers

  predicate IsLowerHex(c: char) {
    ('0' <= c <= '9') || ('a' <= c <= 'f')
  }

  predicate IsHex(c: char) {
    IsLowerHex(c) || ('A' <= c <= 'F')
  }

  predicate IsDashPosition(i: int) {
    i == 8 || i == 13 || i == 18 || i == 23
  }

  /** The 8-4-4-4-12 shape of UUID.toString, whose digits satisfy `digit`. */
  predicate HasUuidShape(s: string, digit: char -> bool) {
    |s| == 36 &&
    forall i :: 0 <= i < 36 ==> if IsDashPosition(i) then s[i] == '-' else digit(s[i])
  }

  /** What UUID.toString produces: lower-case hex digits in the 8-4-4-4-12 layout. */
  type Uuid = s: string | HasUuidShape(s, IsLowerHex)
    witness "00000000-0000-0000-0000-000000000000"

  /** runId.toString().substring(0, 8) */
  function Short(id: Uuid): (r: string)
    ensures |r| == 8 && r == id[..8]
    ensures '[' !in r && ']' !in r && ' ' !in r
    ensures forall i :: 0 <= i < |r| ==> r[i] > ' '
  {
    assert forall i :: 0 <= i < 8 ==> IsLowerHex(id[i]);
    id[..8]
  }

  /**
   * UUID.fromString on a directory name, for names in the canonical layout:
   * digits of either case are accepted and the UUID's text is lower case.
   */
  function ParseUuid(name: string): (r: Wrappers.Option<Uuid>)
    ensures r.Some? <==> HasUuidShape(name, IsHex)
    ensures r.Some? ==> r.value == Text.ToLower(name)
    ensures HasUuidShape(name, IsLowerHex) ==> r == Wrappers.Some(name)
  {
    if HasUuidShape(name, IsHex) then
      var lower := Text.ToLower(name);
      assert HasUuidShape(lower, IsLowerHex);
      assert HasUuidShape(name, IsLowerHex) ==> lower == name;
      Wrappers.Some(lower)
    else Wrappers.None
  }
}
