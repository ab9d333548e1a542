/**
 * The two pure helpers of the home screen (ContentView.swift): the
 * time-of-day greeting and the scroll-offset preference key's reducer.
 */
module Content {

  const Morning: string := "早上好"
  const Afternoon: string := "下午好"
  const Evening: string := "晚上好"

  /** `timeBasedGreeting` for the hour read from the clock. */
  function TimeBasedGreeting(hour: int): string
  {
    if hour >= 6 && hour < 12 then Morning
    else if hour >= 12 && hour < 18 then Afternoon
    else Evening
  }

  /**
   * The greeting partitions every hour three ways: hours 6-11 greet the
   * morning, 12-17 the afternoon, and every other value the evening.
   */
  lemma GreetingPartition(hour: int)
    ensures TimeBasedGreeting(hour) == Morning <==> 6 <= hour <= 11
    ensures TimeBasedGreeting(hour) == Afternoon <==> 12 <= hour <= 17
    ensures TimeBasedGreeting(hour) == Evening <==> hour < 6 || hour > 17
  {
    assert Morning != Afternoon && Morning != Evening && Afternoon != Evening by {
      assert Morning[0] != Afternoon[0] && Morning[0] != Evening[0] && Afternoon[0] != Evening[0];
    }
  }

  /** `ScrollOffsetPreferenceKey.defaultValue`. */
  const DefaultScrollOffset: real := 0.0

  /** `ScrollOffsetPreferenceKey.reduce(value:nextValue:)`: the accumulated value is replaced. */
  function ReduceScrollOffset(value: real, nextValue: real): real
  {
    nextValue
  }

  /** Combining a run of reported offsets, starting from `acc`, with the key's reducer. */
  function CombineOffsets(acc: real, offsets: seq<real>): real
    decreases |offsets|
  {
    if offsets == [] then acc else CombineOffsets(ReduceScrollOffset(acc, offsets[0]), offsets[1..])
  }

  /** The last reported offset wins; with none reported the default remains. */
  lemma {:induction false} CombineOffsetsLastWins(acc: real, offsets: seq<real>)
    ensures offsets == [] ==> CombineOffsets(acc, offsets) == acc
    ensures offsets != [] ==> CombineOffsets(acc, offsets) == offsets[|offsets| - 1]
    decreases |offsets|
  {
    if offsets != [] {
      CombineOffsetsLastWins(ReduceScrollOffset(acc, offsets[0]), offsets[1..]);
    }
  }
}
