/**
 * Topic names are split into levels at every '/', the topic level separator of
 * section 4.7.1.1 of MQTT Version 3.1.1. The dispatcher does this with Python's
 * `str.split("/")`, which keeps empty levels ("a//b" has three levels) and
 * always yields at least one level (the empty topic has the one level "").
 */
module Topics {

  const Separator: char := '/'

  /** The levels of `topic`, as `topic.split("/")` returns them. */
  function Split(topic: string): (levels: seq<string>)
    ensures |levels| >= 1
    ensures forall i :: 0 <= i < |levels| ==> Separator !in levels[i]
  {
    if topic == [] then [[]]
    else
      var rest := Split(topic[1..]);
      if topic[0] == Separator then [[]] + rest
      else [[topic[0]] + rest[0]] + rest[1..]
  }

  /** The topic whose levels are `levels`, as `"/".join(levels)` builds it. */
  function Join(levels: seq<string>): (topic: string)
    decreases |levels|
  {
    if |levels| == 0 then []
    else if |levels| == 1 then levels[0]
    else levels[0] + [Separator] + Join(levels[1..])
  }

  /** Splitting loses nothing: joining the levels gives the topic back. */
  lemma {:induction false} JoinSplit(topic: string)
    ensures Join(Split(topic)) == topic
  {
    if topic != [] {
      var rest := Split(topic[1..]);
      JoinSplit(topic[1..]);
      if topic[0] != Separator {
        assert Split(topic) == [[topic[0]] + rest[0]] + rest[1..];
        if |rest| == 1 {
          assert Join(Split(topic)) == [topic[0]] + rest[0];
        } else {
          assert Join(rest) == rest[0] + [Separator] + Join(rest[1..]);
          assert Join(Split(topic)) == [topic[0]] + rest[0] + [Separator] + Join(rest[1..]);
        }
        assert [topic[0]] + topic[1..] == topic;
      } else {
        assert Join(Split(topic)) == [] + [Separator] + Join(rest);
        assert [topic[0]] + topic[1..] == topic;
      }
    }
  }

  /** A prefix without separators extends the first level and leaves the others alone. */
  lemma {:induction false} SplitPrefix(word: string, rest: string)
    requires Separator !in word
    ensures Split(word + rest) == [word + Split(rest)[0]] + Split(rest)[1..]
    decreases |word|
  {
    if word == [] {
      assert word + rest == rest;
      var levels := Split(rest);
      assert [] + levels[0] == levels[0];
      assert [levels[0]] + levels[1..] == levels;
    } else {
      assert (word + rest)[1..] == word[1..] + rest;
      assert (word + rest)[0] == word[0];
      SplitPrefix(word[1..], rest);
      assert [word[0]] + (word[1..] + Split(rest)[0]) == word + Split(rest)[0];
    }
  }

  /** A topic `word/rest` splits into `word` followed by the levels of `rest`. */
  lemma SplitLevel(word: string, rest: string)
    requires Separator !in word
    ensures Split(word + [Separator] + rest) == [word] + Split(rest)
  {
    assert word + [Separator] + rest == word + ([Separator] + rest);
    var tail := [Separator] + rest;
    SplitPrefix(word, tail);
    assert tail[0] == Separator && tail[1..] == rest;
    assert Split(tail) == [[]] + Split(rest);
    assert word + [] == word;
  }

  /** Joining levels free of separators and splitting again gives the same levels. */
  lemma {:induction false} SplitJoin(levels: seq<string>)
    requires |levels| >= 1
    requires forall i :: 0 <= i < |levels| ==> Separator !in levels[i]
    ensures Split(Join(levels)) == levels
    decreases |levels|
  {
    if |levels| == 1 {
      SplitPrefix(levels[0], []);
      assert levels[0] + [] == levels[0];
    } else {
      SplitJoin(levels[1..]);
      SplitLevel(levels[0], Join(levels[1..]));
      assert [levels[0]] + levels[1..] == levels;
    }
  }
}
