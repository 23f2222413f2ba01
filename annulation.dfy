/** `annulate_object`: freeze an object's transformations, delete its
    construction history and lock a name-dependent subset of its nine
    transform channels. */
module Annulation {
  import opened Strings
  import opened Scene

  datatype Channel = TX | TY | TZ | RX | RY | RZ | SX | SY | SZ
  {
    predicate IsTranslate() { this == TX || this == TY || this == TZ }
    predicate IsScale() { this == SX || this == SY || this == SZ }

    /** The attribute suffix the host uses for the channel. */
    function Suffix(): string
    {
      match this
      case TX => "tx" case TY => "ty" case TZ => "tz"
      case RX => "rx" case RY => "ry" case RZ => "rz"
      case SX => "sx" case SY => "sy" case SZ => "sz"
    }

    /** Position in the canonical order tx, ty, tz, rx, ry, rz, sx, sy, sz. */
    function Rank(): nat
    {
      match this
      case TX => 0 case TY => 1 case TZ => 2
      case RX => 3 case RY => 4 case RZ => 5
      case SX => 6 case SY => 7 case SZ => 8
    }
  }

  /** The nine channels in canonical order. */
  const AllChannels: seq<Channel> := [TX, TY, TZ, RX, RY, RZ, SX, SY, SZ]

  lemma EveryChannelListed()
    ensures forall ch: Channel :: ch in AllChannels
  {
    forall ch: Channel
      ensures ch in AllChannels
    {
      match ch
      case TX => case TY => case TZ => case RX => case RY => case RZ =>
      case SX => case SY => case SZ =>
    }
  }

  /** The attribute path `'{}.tx'.format(target)` and its siblings. */
  function Attr(target: string, ch: Channel): string
  {
    target + "." + ch.Suffix()
  }

  /** Curves are recognised by the substring `crv` in their name. */
  predicate IsCurveName(target: string)
  {
    Contains(target, "crv")
  }

  /** Root and master controls are recognised by name; they keep translation free. */
  predicate IsAnchorName(target: string)
  {
    Contains(target, "root") || Contains(target, "master")
  }

  /** The channels `annulate_object` locks, in the order it lists them.
      A curve always has scale locked and translation locked unless it is a
      root/master control, and never has rotation locked; any other object
      has all nine channels locked. */
  function LockedChannels(target: string): (r: seq<Channel>)
    ensures forall ch :: ch in r <==>
      (!IsCurveName(target) || ch.IsScale() || (ch.IsTranslate() && !IsAnchorName(target)))
    ensures forall i, j :: 0 <= i < j < |r| ==> r[i].Rank() < r[j].Rank()
  {
    if IsCurveName(target) then
      (if !IsAnchorName(target) then [TX, TY, TZ] else []) + [SX, SY, SZ]
    else
      EveryChannelListed();
      AllChannels
  }

  /** The attribute paths of `channels` on `target`, in the same order. */
  function Attrs(target: string, channels: seq<Channel>): (r: seq<string>)
    ensures |r| == |channels|
  {
    if channels == [] then [] else [Attr(target, channels[0])] + Attrs(target, channels[1..])
  }

  lemma {:induction false} AttrsAt(target: string, channels: seq<Channel>, k: int)
    requires 0 <= k < |channels|
    ensures Attrs(target, channels)[k] == Attr(target, channels[k])
  {
    if k > 0 {
      AttrsAt(target, channels[1..], k - 1);
    }
  }

  lemma {:induction false} AttrsConcat(target: string, xs: seq<Channel>, ys: seq<Channel>)
    ensures Attrs(target, xs + ys) == Attrs(target, xs) + Attrs(target, ys)
  {
    if xs == [] {
      assert xs + ys == ys;
    } else {
      assert (xs + ys)[1..] == xs[1..] + ys;
      AttrsConcat(target, xs[1..], ys);
    }
  }

  /** Extending the list by the paths of three channels extends it by
      `Attrs` of those channels. */
  lemma ExtendByThree(target: string, listed: seq<Channel>, a: Channel, b: Channel, c: Channel)
    ensures Attrs(target, listed) + [Attr(target, a), Attr(target, b), Attr(target, c)]
         == Attrs(target, listed + [a, b, c])
  {
    AttrsConcat(target, listed, [a, b, c]);
    assert [a, b, c][1..] == [b, c];
    assert [b, c][1..] == [c];
    assert Attrs(target, [c]) == [Attr(target, c)];
    assert Attrs(target, [b, c]) == [Attr(target, b), Attr(target, c)];
  }

  /** One lock effect per attribute path, in the same order. */
  function Locks(attrs: seq<string>): (r: seq<Effect>)
    ensures |r| == |attrs|
  {
    if attrs == [] then [] else [Lock(attrs[0])] + Locks(attrs[1..])
  }

  lemma {:induction false} LocksSnoc(attrs: seq<string>, attr: string)
    ensures Locks(attrs + [attr]) == Locks(attrs) + [Lock(attr)]
  {
    if attrs == [] {
      assert [] + [attr] == [attr];
    } else {
      assert (attrs + [attr])[1..] == attrs[1..] + [attr];
      LocksSnoc(attrs[1..], attr);
    }
  }

  /** The host effects of `annulate_object(target)`, in issue order. */
  function AnnulateEffects(target: string): seq<Effect>
  {
    [MakeIdentity(target), DeleteHistory(target)] + Locks(Attrs(target, LockedChannels(target)))
  }

  lemma {:induction false} LocksAt(attrs: seq<string>, k: int)
    requires 0 <= k < |attrs|
    ensures Locks(attrs)[k] == Lock(attrs[k])
  {
    if k > 0 {
      LocksAt(attrs[1..], k - 1);
    }
  }

  /** Different channels of one object have different attribute paths. */
  lemma AttrInjective(target: string, a: Channel, b: Channel)
    requires Attr(target, a) == Attr(target, b)
    ensures a == b
  {
    var n := |target| + 1;
    assert Attr(target, a)[n..] == a.Suffix();
    assert Attr(target, b)[n..] == b.Suffix();
  }

  /** `annulate_object` locks the attribute of channel `ch` exactly when
      `ch` is one of the channels its rule selects for `target`. */
  lemma AnnulateLocksExactly(target: string, ch: Channel)
    ensures Lock(Attr(target, ch)) in AnnulateEffects(target) <==> ch in LockedChannels(target)
  {
    var cs := LockedChannels(target);
    var attrs := Attrs(target, cs);
    var es := AnnulateEffects(target);
    if ch in cs {
      var k :| 0 <= k < |cs| && cs[k] == ch;
      AttrsAt(target, cs, k);
      LocksAt(attrs, k);
      assert es[k + 2] == Lock(Attr(target, ch));
    }
    if Lock(Attr(target, ch)) in es {
      var m :| 0 <= m < |es| && es[m] == Lock(Attr(target, ch));
      assert m >= 2;
      AttrsAt(target, cs, m - 2);
      LocksAt(attrs, m - 2);
      AttrInjective(target, ch, cs[m - 2]);
    }
  }

  /** `annulate_object`: builds the list of attribute paths by extension,
      then locks each listed attribute in turn. */
  method AnnulateObject(target: string) returns (effects: seq<Effect>)
    ensures effects == AnnulateEffects(target)
    ensures |effects| == 2 + |LockedChannels(target)|
  {
    var properties: seq<string> := [];
    ghost var listed: seq<Channel> := [];
    if Contains(target, "crv") {
      if !Contains(target, "root") && !Contains(target, "master") {
        ExtendByThree(target, listed, TX, TY, TZ);
        properties, listed := properties + [Attr(target, TX), Attr(target, TY), Attr(target, TZ)], listed + [TX, TY, TZ];
      }
      ExtendByThree(target, listed, SX, SY, SZ);
      properties, listed := properties + [Attr(target, SX), Attr(target, SY), Attr(target, SZ)], listed + [SX, SY, SZ];
    } else {
      ExtendByThree(target, listed, TX, TY, TZ);
      properties, listed := properties + [Attr(target, TX), Attr(target, TY), Attr(target, TZ)], listed + [TX, TY, TZ];
      ExtendByThree(target, listed, RX, RY, RZ);
      properties, listed := properties + [Attr(target, RX), Attr(target, RY), Attr(target, RZ)], listed + [RX, RY, RZ];
      ExtendByThree(target, listed, SX, SY, SZ);
      properties, listed := properties + [Attr(target, SX), Attr(target, SY), Attr(target, SZ)], listed + [SX, SY, SZ];
    }
    assert listed == LockedChannels(target);

    var locks := LockAttributes(properties);
    effects := [MakeIdentity(target), DeleteHistory(target)] + locks;
  }

  /** The closing loop of `annulate_object`: lock each listed attribute, in order. */
  method LockAttributes(attrs: seq<string>) returns (effects: seq<Effect>)
    ensures effects == Locks(attrs)
  {
    effects := [];
    for i := 0 to |attrs|
      invariant effects == Locks(attrs[..i])
    {
      LocksSnoc(attrs[..i], attrs[i]);
      assert attrs[..i + 1] == attrs[..i] + [attrs[i]];
      effects := effects + [Lock(attrs[i])];
    }
    assert attrs[..|attrs|] == attrs;
  }
}
