/**
 * What every layer shares: the kinds of layer a network is built from
 * (`LayerType` in richard/src/layer.hpp) and the names they print as
 * (`operator<<` in richard/src/cpu/cpu_neural_net.cpp), the
 * configuration lookups layer constructors make, and the parameter stream
 * that `writeToStream` fills and the stream constructors read back.
 *
 * The stream is kept as the sequence of `netfloat_t` values written to it,
 * one value per element, in order.
 */
module Layers {
  import opened Wrappers
  import Cfg = Config

  datatype LayerType = Dense | Convolutional | MaxPooling | Output

  /** `sizeof(netfloat_t)`: GPU buffers are sized in bytes, four per value. */
  const NetFloatSize: nat := 4

  /** The bytes `count` values take in a GPU buffer. */
  function Bytes(count: nat): nat {
    count * NetFloatSize
  }

  /** The name a layer type prints as. */
  function TypeName(t: LayerType): (r: string)
    ensures |r| > 0
    ensures t == Dense <==> r == "DENSE"
    ensures t == Convolutional <==> r == "CONVOLUTIONAL"
    ensures t == MaxPooling <==> r == "MAX_POOLING"
    ensures t == Output <==> r == "OUTPUT"
  {
    match t
    case Dense => "DENSE"
    case Convolutional => "CONVOLUTIONAL"
    case MaxPooling => "MAX_POOLING"
    case Output => "OUTPUT"
  }

  /** Distinct layer types print differently, so a message names the type it was given. */
  lemma TypeNameInjective(s: LayerType, t: LayerType)
    ensures TypeName(s) == TypeName(t) ==> s == t
  {
  }

  /*
   * Configuration lookups.
   */

  /** `config.getNumber<size_t>(key)`: the stored number cast to `size_t`, or the not-found error. */
  function GetSize(c: Cfg.Config, key: string): (r: Result<nat>)
    reads c
    ensures r.Ok? <==> key in c.entries
    ensures r.Ok? ==> Cfg.NumberOf(c.entries[key], Cfg.SizeT) == Cfg.IntNumber(r.value)
    ensures r.Err? ==> r.message == Cfg.NotFound(key)
  {
    var n :- c.GetNumber(key, Cfg.SizeT);
    Ok(n.i)
  }

  /** `config.getNumber<netfloat_t>(key)`. */
  function GetNetFloat(c: Cfg.Config, key: string): (r: Result<real>)
    reads c
    ensures r.Ok? <==> key in c.entries
    ensures r.Ok? ==> Cfg.NumberOf(c.entries[key], Cfg.NetFloat) == Cfg.RealNumber(r.value)
    ensures r.Err? ==> r.message == Cfg.NotFound(key)
  {
    var n :- c.GetNumber(key, Cfg.NetFloat);
    Ok(n.r)
  }

  /** The two sizes `getNumberArray<size_t, 2>` yields for a stored entry. */
  function SizePairOf(c: Cfg.Config, key: string): (r: (nat, nat))
    reads c
    requires key in c.entries
    ensures var xs := Cfg.FixedNumbersOf(c.entries[key], Cfg.SizeT, 2);
      xs[0] == Cfg.IntNumber(r.0) && xs[1] == Cfg.IntNumber(r.1)
  {
    var xs := Cfg.FixedNumbersOf(c.entries[key], Cfg.SizeT, 2);
    Cfg.FixedNumbersInDomain(c.entries[key], Cfg.SizeT, 2);
    (xs[0].i, xs[1].i)
  }

  /** `config.getNumberArray<size_t, 2>(key)`: the first two entries, zero-filled. */
  method GetSizePair(c: Cfg.Config, key: string) returns (r: Result<(nat, nat)>)
    ensures r.Ok? <==> key in c.entries
    ensures r.Ok? ==> r.value == SizePairOf(c, key)
    ensures r.Err? ==> r.message == Cfg.NotFound(key)
  {
    var xs :- c.GetFixedNumberArray(key, Cfg.SizeT, 2);
    Cfg.FixedNumbersInDomain(c.entries[key], Cfg.SizeT, 2);
    return Ok((xs[0].i, xs[1].i));
  }

  /*
   * The parameter stream.
   */

  /**
   * `stream.read` of `|buf|` values into `buf`: as many values as the stream
   * still holds are copied, the rest of `buf` keeps its contents, and the
   * stream is left with what follows.
   */
  function ReadValues(buf: seq<real>, s: seq<real>): (r: (seq<real>, seq<real>))
    ensures |r.0| == |buf|
    ensures |s| >= |buf| ==> r.0 + r.1 == s
    ensures |s| < |buf| ==> r.1 == [] && r.0[..|s|] == s && r.0[|s|..] == buf[|s|..]
  {
    if |s| >= |buf| then (s[..|buf|], s[|buf|..]) else (s + buf[|s|..], [])
  }

  /** Reading back what was written: a read of `|values|` values returns them and leaves the rest. */
  lemma ReadWritten(buf: seq<real>, values: seq<real>, rest: seq<real>)
    requires |values| == |buf|
    ensures ReadValues(buf, values + rest) == (values, rest)
  {
    var r := ReadValues(buf, values + rest);
    assert r.0 == (values + rest)[..|buf|];
  }
}
