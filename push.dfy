/** The canned test notifications: each call to the push handler sends the
    next of five fixed messages, chosen by a counter taken modulo five. */
module Push {

  /** The data of a notification: its title and its body. */
  datatype Message = Message(title: string, body: string)

  const Title: string := "Test PUSH Message"

  /** The five bodies in rotation order. */
  const Bodies: seq<string> := [
    "This is a test PUSH message",
    "Hello World!",
    "How are you doing today?",
    "Welcome to Handy!",
    "Someone has requested your service!"
  ]

  /** The message sent when the counter stands at `counter`: body number
      counter mod 5 of the rotation. */
  function PushMessage(counter: nat): (m: Message)
    ensures m == Message(Title, Bodies[counter % 5])
  {
    if counter % 5 == 0 then Message(Title, "This is a test PUSH message")
    else if counter % 5 == 1 then Message(Title, "Hello World!")
    else if counter % 5 == 2 then Message(Title, "How are you doing today?")
    else if counter % 5 == 3 then Message(Title, "Welcome to Handy!")
    else Message(Title, "Someone has requested your service!")
  }

  /** The messages sent by `n` consecutive successful calls, the first made
      when the counter stands at `counter`. */
  function Broadcasts(counter: nat, n: nat): seq<Message>
    decreases n
  {
    if n == 0 then [] else [PushMessage(counter)] + Broadcasts(counter + 1, n - 1)
  }

  /** The i-th of n consecutive calls sends the message of counter + i. */
  lemma {:induction false} BroadcastsAt(counter: nat, n: nat, i: nat)
    requires i < n
    ensures |Broadcasts(counter, n)| == n
    ensures Broadcasts(counter, n)[i] == PushMessage(counter + i)
    decreases n
  {
    if i == 0 {
      BroadcastsLength(counter + 1, n - 1);
    } else {
      BroadcastsAt(counter + 1, n - 1, i - 1);
    }
  }

  lemma {:induction false} BroadcastsLength(counter: nat, n: nat)
    ensures |Broadcasts(counter, n)| == n
    decreases n
  {
    if n > 0 {
      BroadcastsLength(counter + 1, n - 1);
    }
  }

  /** Messages of counters less than five apart differ; counters five apart
      send the same message. */
  lemma RotationPeriod(c: nat, d: nat)
    ensures c < d < c + 5 ==> PushMessage(c) != PushMessage(d)
    ensures PushMessage(c + 5) == PushMessage(c)
  {
    var q := c / 5;
    assert c == 5 * q + c % 5;
    assert (c + 5) % 5 == c % 5;
    if c < d < c + 5 {
      if d < 5 * q + 5 {
        assert d % 5 == d - 5 * q;
      } else {
        assert d % 5 == d - 5 * q - 5;
      }
      assert c % 5 != d % 5;
      assert Bodies[c % 5] != Bodies[d % 5];
    }
  }

  /** The messages of six consecutive calls, written out. */
  lemma SixBroadcasts(counter: nat)
    ensures Broadcasts(counter, 6)
         == [PushMessage(counter), PushMessage(counter + 1), PushMessage(counter + 2),
             PushMessage(counter + 3), PushMessage(counter + 4), PushMessage(counter + 5)]
  {
    var b := Broadcasts(counter, 6);
    forall i | 0 <= i < 6
      ensures |b| == 6 && b[i] == PushMessage(counter + i)
    {
      BroadcastsAt(counter, 6, i);
    }
  }

  /** Among consecutive calls, two fewer than five calls apart send
      different messages, and two exactly five apart send the same one. */
  lemma BroadcastsRotate(counter: nat, n: nat, i: nat, j: nat)
    requires i < j < n
    ensures |Broadcasts(counter, n)| == n
    ensures j < i + 5 ==> Broadcasts(counter, n)[i] != Broadcasts(counter, n)[j]
    ensures j == i + 5 ==> Broadcasts(counter, n)[i] == Broadcasts(counter, n)[j]
  {
    BroadcastsAt(counter, n, i);
    BroadcastsAt(counter, n, j);
    RotationPeriod(counter + i, counter + j);
  }

  /** Five consecutive calls send five different messages, and the sixth
      sends the first one again. */
  lemma FiveDistinctThenRepeat(counter: nat)
    ensures |Broadcasts(counter, 6)| == 6
    ensures forall i, j :: 0 <= i < j < 5 ==> Broadcasts(counter, 6)[i] != Broadcasts(counter, 6)[j]
    ensures Broadcasts(counter, 6)[5] == Broadcasts(counter, 6)[0]
  {
    forall i, j | 0 <= i < j < 5
      ensures Broadcasts(counter, 6)[i] != Broadcasts(counter, 6)[j]
    {
      BroadcastsRotate(counter, 6, i, j);
    }
    BroadcastsRotate(counter, 6, 0, 5);
  }
}
