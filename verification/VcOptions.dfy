/** What the options of a block ask for and what stands in for what a block does not say: the choices that its
    writer and its reader share. */
module VcOptions {
  import opened Bits
  import opened Bytes
  import opened Varint
  import opened VcValues
  import opened VcCodes
  import opened VcWave
  import opened VcBlock
  import opened VcStore
  import opened VcPayload
  import opened VcDataBlocks
  import opened BytesplitBlocks
  import N = VcNative
  import E = VcNativeEntries

  /** Each flag says what the options ask for; a block that is compressed as a whole has no parts compressed
      and no footer. */
  lemma FlagsFollowOptions(c: Codecs, o: Options, sigs: SigMap, b: VcBlock.Block)
    requires BlockOk(b, sigs)
    ensures var f := EncBlock(c, o, sigs, b).0;
            && (f.compressed <==> o.compress) && (f.zstd <==> o.compress && o.zstd)
            && (f.timeZlib <==> o.compressTimes && !o.compress)
            && (f.waveZlib <==> o.compressWaves && o.wavesZlib && !o.compress)
            && (f.waveLz4 <==> o.compressWaves && !o.wavesZlib && !o.compress)
            && f.xorDelta && (f.seekable <==> o.seekable && !o.compress)
    ensures EncBlock(c, o, sigs, b).1 ==
            if o.compress && o.zstd then c.zstd.pack(EncPayload(c, NO_PARTS, sigs, b))
            else if o.compress then c.zlib.pack(EncPayload(c, NO_PARTS, sigs, b))
            else EncPayload(c, EncBlock(c, o, sigs, b).0, sigs, b)
  {
    hide EncPayload, BlockOk;
  }

  const NO_PARTS: Flags := Flags(false, false, false, false, false, true, false)

  /** Waves are packed by the compressor that the flags name, and only if that saves more than two bytes. */
  lemma PackedIfWorth(c: Codecs, f: Flags, raw: bytes)
    ensures !f.waveZlib && !f.waveLz4 ==> Stored(ModeOf(c, f), raw) == raw
    ensures f.waveZlib || (f.waveLz4 && c.lz4.Some?) ==>
              var packed := (if f.waveZlib then c.zlib else c.lz4.value).pack(raw);
              Stored(ModeOf(c, f), raw) ==
                if |packed| + 3 <= |raw| then [0x01] + (EncU(|raw|) + (EncU(|packed|) + packed)) else [0x00] + raw
    ensures f.waveLz4 && !f.waveZlib && c.lz4.None? ==> Stored(ModeOf(c, f), raw) == [0x00] + raw
  {
    hide EncU;
  }

  /** Positions are of four bytes exactly while every offset into the wave data fits those. */
  lemma PositionBytes(waves: bytes)
    ensures EntrySize(waves) == 4 || EntrySize(waves) == 8
    ensures EntrySize(waves) == 4 <==> |waves| < Pow2(32)
  {
    Pow2Values();
  }

  /** A variable without a type is a one-bit two-state signal; without a value it starts at zero, at an empty
      text or at a double of zero bytes. */
  lemma Defaults(b: VcBlock.Block, sigs: SigMap, id: nat)
    ensures id !in sigs ==> SigOf(sigs, id).enc == TwoState && SigOf(sigs, id).width == 1
    ensures id in sigs ==> SigOf(sigs, id) == sigs[id]
    ensures id in b.init ==> InitOf(b, sigs, id) == b.init[id]
    ensures id !in b.init ==>
              match InitOf(b, sigs, id)
              case Int(n) => n == 0 && SigOf(sigs, id).enc !in {Real, Analog, Str}
              case Dbl(raw) => raw == seq(8, _ => 0) && SigOf(sigs, id).enc in {Real, Analog}
              case Text(utf8) => utf8 == [] && SigOf(sigs, id).enc == Str
              case States(_) => false
  {
  }

  /** Byte-plane blocks take doubles and two-state values, each in as few whole bytes as hold it. */
  lemma PlaneWidths(sig: Sig)
    ensures Supported(sig) <==> sig.enc in {Real, TwoState}
    ensures LeastBytes(WidthOf(sig), if sig.enc == Real then 64 else sig.width)
    ensures KindOf(sig) == if sig.enc == Real then 1 else 0
  {
  }

  /** A callback of the native reader gets as few whole bytes as hold a value, and never more than eight. */
  lemma CallbackBytes(width: nat)
    ensures N.ValueBytes(width) <= 8 && (width <= 64 ==> LeastBytes(N.ValueBytes(width), width)) && (width > 64 ==> N.ValueBytes(width) == 8)
  {
  }

  /** The native sizes of wide four-state and nine-state values, for widths short of 32 bits of bits: one bit a
      state if the value's bytes are no more than that takes, else two bits or four. */
  lemma NativeSizes(sig: Sig, v: N.NativeValue)
    requires sig.width < 0x4000_0000 && (sig.enc == FourState || sig.enc == NineState)
    ensures LeastBytes(E.Need(sig, true), sig.width)
    ensures LeastBytes(E.Need(sig, false), if sig.enc == FourState then 2 * sig.width else 4 * sig.width)
    ensures E.IsBinary(sig, v) <==> v.Word? || |v.data| <= E.Need(sig, true)
  {
    hide LeastBytes, E.Width32, AtLeastOne;
    Short(sig.width + 7);
    Short(2 * sig.width + 7);
    Short(sig.width + 1);
    LeastOf(sig.width);
    LeastOf(2 * sig.width);
    LeastOfNibbles(sig.width);
  }

  lemma Short(n: nat)
    requires n < 0x1_0000_0000
    ensures E.Width32(n) == n
  {
  }

  lemma LeastOf(bits: nat)
    ensures LeastBytes(AtLeastOne((bits + 7) / 8), bits)
  {
  }

  lemma LeastOfNibbles(n: nat)
    ensures LeastBytes(AtLeastOne((n + 1) / 2), 4 * n)
  {
  }

  /** The native one-bit values: the lowest bit of what was recorded, or its lowest two for four states. */
  lemma NativeBits(sig: Sig, v: N.NativeValue)
    requires sig.width == 1 && (sig.enc == TwoState || sig.enc == FourState)
    ensures BeValue(E.Shown(sig, E.Vector(v))) == N.Full(v) % (if sig.enc == TwoState then 2 else 4)
  {
    E.OneByte(E.Low(v) % (if sig.enc == TwoState then 2 else 4));
    if v.Raw? && v.data != [] {
      LowBits(BeValue(v.data[..|v.data| - 1]), v.data[|v.data| - 1]);
    }
  }

  lemma LowBits(high: nat, low: nat)
    ensures (256 * high + low) % 2 == low % 2 && (256 * high + low) % 4 == low % 4
  {
    DivUnique(256 * high + low, 2, 128 * high + low / 2, low % 2);
    DivUnique(256 * high + low, 4, 64 * high + low / 4, low % 4);
  }
}
