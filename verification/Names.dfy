/** Which topic names are allowed (broker/broker.go:51-69). */
module Names {
  import opened Words

  const MAX_TOPIC_NAME_LEN := 255

  /** An ASCII control character. */
  predicate Control(b: byte) {
    b < 0x20 || b == 0x7F
  }

  predicate ValidName(name: Bytes) {
    0 < |name| <= MAX_TOPIC_NAME_LEN && forall i :: 0 <= i < |name| ==> !Control(name[i])
  }

  /** What is wrong with a name: emptiness, then length, then its bytes. */
  function NameError(name: Bytes): (e: Option<Error>)
    ensures e == None <==> ValidName(name)
    ensures e == Some(EmptyTopicName) <==> |name| == 0
    ensures e == Some(TopicNameTooLong) <==> |name| > 255
    ensures e == Some(InvalidTopicName) <==>
            0 < |name| <= 255 && exists i :: 0 <= i < |name| && (name[i] < 32 || name[i] == 127)
  {
    if name == [] then Some(EmptyTopicName)
    else if |name| > MAX_TOPIC_NAME_LEN then Some(TopicNameTooLong)
    else if ValidName(name) then None
    else Some(InvalidTopicName)
  }

  method ValidateTopicName(name: Bytes) returns (e: Option<Error>)
    ensures e == NameError(name) && (e == None <==> ValidName(name))
  {
    if |name| == 0 {
      return Some(EmptyTopicName);
    }
    if |name| > MAX_TOPIC_NAME_LEN {
      return Some(TopicNameTooLong);
    }
    for i := 0 to |name|
      invariant forall j :: 0 <= j < i ==> !Control(name[j])
    {
      if name[i] < 0x20 || name[i] == 0x7F {
        assert Control(name[i]);
        return Some(InvalidTopicName);
      }
    }
    e := None;
  }
}
