/** The seed data of the application (constants.ts). */
module Constants {
  import opened Wrappers
  import opened Types
  import JsText

  /** The two notebooks the gallery starts with. */
  const INITIAL_NOTEBOOKS: seq<Notebook> := [
    Notebook("1", "확률과 통계", "bg-blue-200", "2023-10-25"),
    Notebook("2", "인공지능", "bg-indigo-200", "2023-10-26")
  ]

  /** How many stamps the board is generated with. */
  const STAMP_COUNT: nat := 10

  /** The stamp generated at position `i`: the first three are earned, dated 24, 25 and 26 October 2023. */
  function InitialStamp(i: nat): (st: Stamp)
    ensures st.id == i + 1
    ensures st.achieved <==> i < 3
    ensures st.date.Some? <==> st.achieved
  {
    Stamp(i + 1, i < 3, if i < 3 then Some("2023-10-" + JsText.DecimalString(24 + i)) else None)
  }

  /** `Array.from({ length: 10 }, ...)`. */
  const INITIAL_STAMPS: seq<Stamp> := seq(STAMP_COUNT, i requires 0 <= i => InitialStamp(i))

  const SOUND_TRACKS: seq<SoundTrack> := [
    SoundTrack(RAIN, "빗소리", "\U{1F327}\U{FE0F}"),
    SoundTrack(FIRE, "장작 소리", "\U{1F525}"),
    SoundTrack(CAFE, "카페 소음", "\U{2615}"),
    SoundTrack(LIBRARY, "도서관", "\U{1F4DA}")
  ]

  /** Ten stamps with ids 1..10 in order; exactly the first three earned, and only those dated. */
  lemma InitialStampsShape()
    ensures |INITIAL_STAMPS| == 10
    ensures forall i :: 0 <= i < 10 ==> INITIAL_STAMPS[i].id == i + 1
    ensures forall i :: 0 <= i < 10 ==> (INITIAL_STAMPS[i].achieved <==> i < 3)
    ensures forall i :: 0 <= i < 10 ==> (INITIAL_STAMPS[i].date.Some? <==> INITIAL_STAMPS[i].achieved)
  {
  }

  /** The dates of the three earned stamps, written out. */
  lemma InitialStampDates()
    ensures INITIAL_STAMPS[0].date == Some("2023-10-24")
    ensures INITIAL_STAMPS[1].date == Some("2023-10-25")
    ensures INITIAL_STAMPS[2].date == Some("2023-10-26")
  {
    assert JsText.DecimalString(24) == "24";
    assert JsText.DecimalString(25) == "25";
    assert JsText.DecimalString(26) == "26";
    assert INITIAL_STAMPS[0] == InitialStamp(0);
    assert INITIAL_STAMPS[1] == InitialStamp(1);
    assert INITIAL_STAMPS[2] == InitialStamp(2);
    assert "2023-10-" + "24" == "2023-10-24";
    assert "2023-10-" + "25" == "2023-10-25";
    assert "2023-10-" + "26" == "2023-10-26";
  }

  /** Two seed notebooks with distinct ids "1" and "2". */
  lemma InitialNotebooksDistinct()
    ensures |INITIAL_NOTEBOOKS| == 2
    ensures INITIAL_NOTEBOOKS[0].id == "1" && INITIAL_NOTEBOOKS[1].id == "2"
    ensures forall a, b :: 0 <= a < b < |INITIAL_NOTEBOOKS| ==> INITIAL_NOTEBOOKS[a].id != INITIAL_NOTEBOOKS[b].id
  {
  }

  /** Four tracks, the first one rain, no two of the same type. */
  lemma SoundTracksDistinct()
    ensures |SOUND_TRACKS| == 4 && SOUND_TRACKS[0].soundType == RAIN
    ensures forall a, b :: 0 <= a < b < |SOUND_TRACKS| ==> SOUND_TRACKS[a].soundType != SOUND_TRACKS[b].soundType
  {
  }
}
