/** The client's loops over its buffer: filling it before the writes, checking it after each read. */
module ClientBuffer {
  import opened Protocol

  /** Before the writes, the client fills its buffer with one of 25 letters, by its rank. */
  method FillBuffer(cfg: Setup, c: nat, buffer: array<char>)
    requires cfg.requestSize <= buffer.Length
    modifies buffer
    ensures forall i :: 0 <= i < cfg.requestSize ==> buffer[i] as int == 97 + c % 25
    ensures buffer[..cfg.requestSize] == cfg.Fill(c)
    ensures buffer[cfg.requestSize..] == old(buffer[cfg.requestSize..])
  {
    var b := 0;
    while b < cfg.requestSize
      invariant b <= cfg.requestSize
      invariant forall i :: 0 <= i < b ==> buffer[i] as int == 97 + c % 25
      invariant buffer[b..] == old(buffer[b..])
    {
      buffer[b] := ('a' as int + c % 25) as char;
      b := b + 1;
    }
  }

  /** How many bytes have another value than this. */
  function Mismatches(data: seq<char>, value: int): nat {
    if data == [] then 0
    else Mismatches(data[..|data| - 1], value) + if data[|data| - 1] as int != value then 1 else 0
  }

  /** The errors that the client counts are the bytes that are not its letter. */
  method CountErrors(cfg: Setup, c: nat, buffer: array<char>) returns (errors: nat)
    requires cfg.requestSize <= buffer.Length
    ensures errors == Mismatches(buffer[..cfg.requestSize], 97 + c % 25)
    ensures errors == |set i | 0 <= i < cfg.requestSize && buffer[i] as int != 97 + c % 25|
    ensures errors == 0 <==> buffer[..cfg.requestSize] == cfg.Fill(c)
  {
    errors := 0;
    var b := 0;
    while b < cfg.requestSize
      invariant b <= cfg.requestSize
      invariant errors == Mismatches(buffer[..b], 97 + c % 25)
    {
      assert buffer[..b + 1][..b] == buffer[..b];
      if buffer[b] != ('a' as int + c % 25) as char {
        errors := errors + 1;
      }
      b := b + 1;
    }
    ghost var data := buffer[..cfg.requestSize];
    MismatchesAre(data, 97 + c % 25);
    assert MismatchesIn(data, 97 + c % 25) == set i | 0 <= i < cfg.requestSize && buffer[i] as int != 97 + c % 25;
    NoMismatch(cfg, c, data);
  }

  /** The positions of those bytes. */
  function MismatchesIn(data: seq<char>, value: int): set<int> {
    set i | 0 <= i < |data| && data[i] as int != value
  }

  lemma {:induction false} MismatchesAre(data: seq<char>, value: int)
    ensures Mismatches(data, value) == |MismatchesIn(data, value)|
  {
    if data != [] {
      var n := |data| - 1;
      MismatchesAre(data[..n], value);
      assert MismatchesIn(data, value) ==
             MismatchesIn(data[..n], value) + if data[n] as int != value then {n} else {};
    }
  }

  lemma NoMismatch(cfg: Setup, c: nat, data: seq<char>)
    requires |data| == cfg.requestSize
    ensures Mismatches(data, 97 + c % 25) == 0 <==> data == cfg.Fill(c)
  {
    MismatchesAre(data, 97 + c % 25);
    var wrong := MismatchesIn(data, 97 + c % 25);
    if data == cfg.Fill(c) {
      assert wrong == {};
    } else {
      var i :| 0 <= i < |data| && data[i] != cfg.Fill(c)[i];
      assert i in wrong;
    }
  }
}
