/** The events of the golden file callreturn.trl, byte by byte. */
module GoldenCalls {
  import opened Bytes
  import opened Varint
  import opened CallReturn
  import opened Golden
  import opened StringTables

  const ADD: bytes := [0x61, 0x64, 0x64]
  const LOG: bytes := [0x6C, 0x6F, 0x67]
  const HI: bytes := [0x68, 0x69]

  const SIGS: Signatures := map[1 := Signature(ADD, [Int, Int]), 2 := Signature(LOG, [Text])]

  /** The names of the streams and of the functions are interned before the calls. */
  const NAMES: seq<bytes> := [[0x63, 0x61, 0x6C, 0x6C, 0x73], [0x73, 0x69, 0x67], ADD, LOG]

  const THREE_FOUR := Frame(1, [Num(3), Num(4)])
  const GREETING := Frame(2, [Txt(HI)])

  const E1 := Enter(10, 1, [Num(3), Num(4)])
  const E2 := Enter(12, 2, [Txt(HI)])
  const E3 := Exit(13, None)
  const E4 := Enter(15, 1, [Num(3), Num(4)])
  const E5 := Exit(16, Some(7))
  const E6 := Exit(20, Some(7))

  const S1: State := State(10, map[1 := [Num(3), Num(4)]], [THREE_FOUR])
  const S2: State := State(12, map[1 := [Num(3), Num(4)], 2 := [Num(0)]], [THREE_FOUR, GREETING])

  function At(time: int): State {
    S2.(time := time)
  }

  lemma First()
    ensures StateOk(START, SIGS) && EventOk(E1, SIGS)
    ensures EncEvent(E1, START, 16, SIGS, NAMES) == EventOut([1, 1, 6, 8, 20], S1, NAMES)
  {
    hide EncU, EncS;
    SmallUnsigned(1);
    SmallSigned(3);
    SmallSigned(4);
    SmallSigned(10);
    assert Predictor(START.prev, 1, 2) == [Num(0), Num(0)];
    assert [Num(0), Num(0)][0 := Num(3)][1 := Num(4)] == [Num(3), Num(4)];
    assert START.prev[1 := [Num(3), Num(4)]] == S1.prev;
    assert [] + [THREE_FOUR] == [THREE_FOUR];
  }

  lemma Second()
    ensures StateOk(S1, SIGS) && EventOk(E2, SIGS)
    ensures EncEvent(E2, S1, 16, SIGS, NAMES) == EventOut([1, 2, 5, 4], At(12), NAMES + [HI])
  {
    hide EncU, EncS;
    SmallUnsigned(2);
    SmallUnsigned(5);
    SmallSigned(2);
    assert Predictor(S1.prev, 2, 1) == [Num(0)];
    assert [THREE_FOUR] + [GREETING] == [THREE_FOUR, GREETING];
  }

  lemma Fourth()
    ensures StateOk(At(13), SIGS) && EventOk(E4, SIGS)
    ensures EncEvent(E4, At(13), 16, SIGS, NAMES + [HI]) == EventOut([3, 1, 4], At(15), NAMES + [HI])
  {
    hide EncU, EncS;
    SmallUnsigned(1);
    SmallSigned(2);
    assert S2.prev[1 := [Num(3), Num(4)]] == S2.prev;
  }

  lemma Exits(table: seq<bytes>)
    ensures StateOk(At(12), SIGS) && StateOk(At(15), SIGS) && StateOk(At(16), SIGS)
    ensures EncEvent(E3, At(12), 16, SIGS, table) == EventOut([0, 2], At(13), table)
    ensures EncEvent(E5, At(15), 16, SIGS, table) == EventOut([4, 2, 14], At(16), table)
    ensures EncEvent(E6, At(16), 16, SIGS, table) == EventOut([4, 8, 14], At(20), table)
  {
    hide EncS;
    SmallSigned(1);
    SmallSigned(4);
    SmallSigned(7);
  }

  /** The events of a run one at a time. */
  lemma RunCons(ev: Event, later: seq<Event>, st: State, table: seq<bytes>, o: EventOut, rest: bytes)
    requires StateOk(st, SIGS) && EventOk(ev, SIGS) && EventsOk(later, SIGS) && WindowOk(st.window, 16) && Distinct(table)
    requires o == EncEvent(ev, st, 16, SIGS, table)
    ensures EventsOk([ev] + later, SIGS) && StateOk(o.state, SIGS) && WindowOk(o.state.window, 16) && Distinct(o.table)
    ensures EncRun(later, o.state, 16, SIGS, o.table).out == rest ==> EncRun([ev] + later, st, 16, SIGS, table).out == o.out + rest
  {
    hide EncEvent, StateOk, EventOk, WindowOk, Distinct;
    EventKeeps(ev, st, 16, SIGS, table);
    assert ([ev] + later)[0] == ev && ([ev] + later)[1..] == later;
  }

  lemma AllOk()
    ensures EventOk(E3, SIGS) && EventOk(E5, SIGS) && EventOk(E6, SIGS) && EventsOk([], SIGS)
    ensures WindowOk(START.window, 16) && Distinct(NAMES)
  {
  }

  /** The six events of the file. */
  lemma Events()
    ensures var evs := [E1] + ([E2] + ([E3] + ([E4] + ([E5] + ([E6] + [])))));
            EventsOk(evs, SIGS) && Distinct(NAMES) &&
            EncBlock(1, 2, 16, evs, SIGS, NAMES).out ==
            [1] + [2] + [16] + [6] +
            ([1, 1, 6, 8, 20] + ([1, 2, 5, 4] + ([0, 2] + ([3, 1, 4] + ([4, 2, 14] + ([4, 8, 14] + []))))))
  {
    hide EncEvent, StateOk, EventOk, WindowOk, Distinct, EncU, EventsOk, EncRun;
    AllOk();
    First();
    Second();
    Fourth();
    Exits(NAMES + [HI]);
    SmallUnsigned(1);
    SmallUnsigned(2);
    SmallUnsigned(16);
    SmallUnsigned(6);
    var names := NAMES + [HI];
    assert Distinct(names) && WindowOk(S2.window, 16) && WindowOk(S1.window, 16) by {
      LaterOk();
    }
    NoEvents(At(20), names);
    RunCons(E6, [], At(16), names, EventOut([4, 8, 14], At(20), names), []);
    RunCons(E5, [E6] + [], At(15), names, EventOut([4, 2, 14], At(16), names), [4, 8, 14] + []);
    RunCons(E4, [E5] + ([E6] + []), At(13), names, EventOut([3, 1, 4], At(15), names), [4, 2, 14] + ([4, 8, 14] + []));
    var four := [E4] + ([E5] + ([E6] + []));
    var rest := [3, 1, 4] + ([4, 2, 14] + ([4, 8, 14] + []));
    RunCons(E3, four, At(12), names, EventOut([0, 2], At(13), names), rest);
    RunCons(E2, [E3] + four, S1, NAMES, EventOut([1, 2, 5, 4], At(12), names), [0, 2] + rest);
    RunCons(E1, [E2] + ([E3] + four), START, NAMES, EventOut([1, 1, 6, 8, 20], S1, NAMES), [1, 2, 5, 4] + ([0, 2] + rest));
  }

  lemma LaterOk()
    ensures Distinct(NAMES + [HI]) && WindowOk(S2.window, 16) && WindowOk(S1.window, 16)
  {
  }

  lemma NoEvents(st: State, table: seq<bytes>)
    requires StateOk(st, SIGS) && WindowOk(st.window, 16) && Distinct(table)
    ensures EventsOk([], SIGS) && EncRun([], st, 16, SIGS, table).out == []
  {
  }
}
