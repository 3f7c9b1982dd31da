/**
 * The topic tag input of the setup page: a list of topics (the parent's state, replaced
 * through `onChange`) and the text being typed. Enter, comma and leaving the field add
 * the typed text; Backspace on an empty field removes the last tag; a tag's remove
 * button removes it.
 */
module TopicTags {
  import opened Text

  /** `value.filter((t) => t !== topic)`. */
  function Without(s: seq<string>, topic: string): (r: seq<string>)
    ensures |r| <= |s|
    ensures forall t :: t in r <==> t in s && t != topic
  {
    if s == [] then []
    else Without(s[..|s| - 1], topic) + (if s[|s| - 1] != topic then [s[|s| - 1]] else [])
  }

  /**
   * The filter keeps the order of what it keeps: it distributes over concatenation and
   * keeps a single entry exactly when it differs from the topic.
   */
  lemma {:induction false} WithoutAppend(a: seq<string>, b: seq<string>, topic: string)
    ensures Without(a + b, topic) == Without(a, topic) + Without(b, topic)
    decreases |b|
  {
    if b != [] {
      var init := b[..|b| - 1];
      assert (a + b)[..|a + b| - 1] == a + init;
      WithoutAppend(a, init, topic);
    } else {
      assert a + b == a;
    }
  }

  /** Removing a topic that is not there changes nothing. */
  lemma {:induction false} WithoutAbsent(s: seq<string>, topic: string)
    requires topic !in s
    ensures Without(s, topic) == s
  {
    if s != [] {
      WithoutAbsent(s[..|s| - 1], topic);
    }
  }

  lemma {:induction false} WithoutNoDup(s: seq<string>, topic: string)
    requires NoDup(s)
    ensures NoDup(Without(s, topic))
  {
    if s != [] {
      var init := s[..|s| - 1];
      WithoutNoDup(init, topic);
      var r0 := Without(init, topic);
      if s[|s| - 1] != topic {
        forall i | 0 <= i < |r0| ensures r0[i] != s[|s| - 1] {
          assert r0[i] in init;
        }
      }
    }
  }

  /** In a list without duplicates, removing its last entry drops exactly that entry. */
  lemma WithoutLast(s: seq<string>)
    requires NoDup(s) && s != []
    ensures Without(s, s[|s| - 1]) == s[..|s| - 1]
  {
    var init := s[..|s| - 1];
    assert s[|s| - 1] !in init;
    WithoutAbsent(init, s[|s| - 1]);
  }

  /** What the input keeps true of the list: distinct, trimmed, non-blank tags. */
  predicate GoodTags(s: seq<string>) {
    NoDup(s) && forall i :: 0 <= i < |s| ==> s[i] != [] && Trimmed(s[i])
  }

  /** Removing a topic keeps the tags distinct, trimmed and non-blank. */
  lemma WithoutGood(s: seq<string>, topic: string)
    requires GoodTags(s)
    ensures GoodTags(Without(s, topic))
  {
    WithoutNoDup(s, topic);
    var r := Without(s, topic);
    forall i | 0 <= i < |r| ensures r[i] != [] && Trimmed(r[i]) {
      assert r[i] in r;
      assert r[i] in s;
      var j :| 0 <= j < |s| && s[j] == r[i];
    }
  }

  class TopicTagInput {
    /** The topics, as last handed to `onChange`. */
    var value: seq<string>
    var inputValue: string

    predicate Valid()
      reads this
    {
      GoodTags(value)
    }

    constructor(topics: seq<string>)
      requires GoodTags(topics)
      ensures value == topics && inputValue == "" && Valid()
    {
      value := topics;
      inputValue := "";
    }

    /** Typing in the field. */
    method SetInput(text: string)
      modifies this
      ensures value == old(value) && inputValue == text
    {
      inputValue := text;
    }

    /**
     * `addTopic`: a blank or already present topic changes nothing; any other is trimmed,
     * appended at the end, and the field is cleared.
     */
    method AddTopic(topic: string)
      requires Valid()
      modifies this
      ensures Valid()
      ensures var trimmed := Trim(topic);
        if trimmed == [] || trimmed in old(value) then value == old(value) && inputValue == old(inputValue)
        else value == old(value) + [trimmed] && inputValue == ""
    {
      var trimmed := Trim(topic);
      if trimmed == [] || trimmed in value {
        return;
      }
      value := value + [trimmed];
      inputValue := "";
    }

    /** `removeTopic`: every entry equal to the topic goes, the rest keep their order. */
    method RemoveTopic(topic: string)
      requires Valid()
      modifies this
      ensures Valid()
      ensures value == Without(old(value), topic) && inputValue == old(inputValue)
    {
      WithoutGood(value, topic);
      value := Without(value, topic);
    }

    /**
     * `handleKeyDown`: Enter or comma adds the typed text; Backspace in an empty field
     * removes exactly the last tag; any other key changes nothing.
     */
    method KeyDown(key: string)
      requires Valid()
      modifies this
      ensures Valid()
      ensures key == "Enter" || key == "," ==>
        var trimmed := Trim(old(inputValue));
        if trimmed == [] || trimmed in old(value) then value == old(value) && inputValue == old(inputValue)
        else value == old(value) + [trimmed] && inputValue == ""
      ensures key == "Backspace" && old(inputValue) == [] && old(value) != [] ==>
        value == old(value)[..|old(value)| - 1] && inputValue == old(inputValue)
      ensures key != "Enter" && key != "," && !(key == "Backspace" && old(inputValue) == [] && old(value) != []) ==>
        value == old(value) && inputValue == old(inputValue)
    {
      var typed, topics := inputValue, value;
      if key == "Enter" || key == "," {
        AddTopic(typed);
      }
      if key == "Backspace" && typed == [] && |topics| > 0 {
        WithoutLast(topics);
        RemoveTopic(topics[|topics| - 1]);
      }
    }

    /** Leaving the field adds the typed text. */
    method Blur()
      requires Valid()
      modifies this
      ensures Valid()
      ensures var trimmed := Trim(old(inputValue));
        if trimmed == [] || trimmed in old(value) then value == old(value) && inputValue == old(inputValue)
        else value == old(value) + [trimmed] && inputValue == ""
    {
      AddTopic(inputValue);
    }
  }
}
