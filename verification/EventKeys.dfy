/** The key under which a delivered event is remembered: `HandleEvent` in
    services/notification-service/internal/service/notification_service.go joins subject and payload, and
    `MarkEventProcessed` in internal/repository/notification_repository.go trims the result. */
module EventKeys {
  import opened GoText

  const SUBJECTS: set<string> := {
    "parking.user.registered", "parking.payment.success", "parking.booking.confirmed",
    "parking.booking.cancelled", "parking.auth.password_reset"
  }

  function EventKey(subject: string, payload: string): string {
    "notification:event:" + TrimSpace(subject + ":" + payload)
  }

  /** A subject that begins visibly and has no colon, as all the subscribed ones do. */
  predicate PlainSubject(subject: string) {
    subject != "" && !IsSpace(subject[0]) && ':' !in subject
  }

  lemma SubscribedSubjectsArePlain(subject: string)
    requires subject in SUBJECTS
    ensures PlainSubject(subject)
  {
    assert subject[0] == 'p';
    assert forall i | 0 <= i < |subject| :: subject[i] != ':';
  }

  lemma {:induction false} KeyTrimsOnlyTheEnd(subject: string, payload: string)
    requires PlainSubject(subject)
    ensures TrimSpace(subject + ":" + payload) == subject + ":" + TrimRight(payload)
  {
    var text := subject + ":" + payload;
    assert text[0] == subject[0];
    assert TrimLeft(text) == text;
    TrimRightKeepsHead(subject + ":", payload);
  }

  /** The key of a subscribed subject: the prefix, the subject, a colon, and the payload without the white space at its
      end. */
  lemma KeyExactly(subject: string, payload: string)
    requires subject in SUBJECTS
    ensures EventKey(subject, payload) == "notification:event:" + (subject + ":" + TrimRight(payload))
  {
    SubscribedSubjectsArePlain(subject);
    KeyTrimsOnlyTheEnd(subject, payload);
  }

  lemma {:induction false} SplitAtColon(a: string, x: string, b: string, y: string)
    requires ':' !in a && ':' !in b && a + ":" + x == b + ":" + y
    ensures a == b && x == y
  {
    FirstColon(a, x);
    FirstColon(b, y);
    assert ColonAt(a + ":" + x, |a|) && ColonAt(b + ":" + y, |b|);
    assert a == (a + ":" + x)[..|a|] && b == (b + ":" + y)[..|b|];
    assert x == (a + ":" + x)[|a| + 1..] && y == (b + ":" + y)[|b| + 1..];
  }

  predicate ColonAt(s: string, i: nat) {
    i < |s| && s[i] == ':' && ':' !in s[..i]
  }

  /** The end of the subject is where the first colon stands, and there is only one such place. */
  lemma FirstColon(a: string, x: string)
    requires ':' !in a
    ensures forall i: nat :: ColonAt(a + ":" + x, i) <==> i == |a|
  {
    var s := a + ":" + x;
    assert s[..|a|] == a && s[|a|] == ':';
    forall i: nat
      ensures ColonAt(s, i) <==> i == |a|
    {
      if i < |a| { assert s[i] == a[i] && a[i] in a; }
      if |a| < i < |s| { assert s[..i][|a|] == ':'; }
    }
  }

  /** Two events share a key exactly when they have the same subject and their payloads differ at most in the white
      space at their end: subjects never run into payloads, and white space in front of a payload does count. */
  lemma KeysAgreeExactly(s1: string, p1: string, s2: string, p2: string)
    requires s1 in SUBJECTS && s2 in SUBJECTS
    ensures EventKey(s1, p1) == EventKey(s2, p2) <==> s1 == s2 && TrimRight(p1) == TrimRight(p2)
  {
    SubscribedSubjectsArePlain(s1);
    SubscribedSubjectsArePlain(s2);
    KeyTrimsOnlyTheEnd(s1, p1);
    KeyTrimsOnlyTheEnd(s2, p2);
    var k1, k2 := s1 + ":" + TrimRight(p1), s2 + ":" + TrimRight(p2);
    var prefix := "notification:event:";
    assert EventKey(s1, p1)[|prefix|..] == k1 && EventKey(s2, p2)[|prefix|..] == k2;
    if k1 == k2 {
      SplitAtColon(s1, TrimRight(p1), s2, TrimRight(p2));
    }
  }

  lemma {:induction false} TrimLeftKeepsTail(head: string, tail: string)
    requires head != "" && !IsSpace(head[|head| - 1])
    ensures TrimLeft(head + tail) == TrimLeft(head) + tail
    ensures TrimLeft(head) != "" && !IsSpace(TrimLeft(head)[|TrimLeft(head)| - 1])
  {
    assert (head + tail)[0] == head[0];
    if IsSpace(head[0]) {
      assert (head + tail)[1..] == head[1..] + tail;
      TrimLeftKeepsTail(head[1..], tail);
    }
  }

  lemma {:induction false} TrimRightTwice(s: string)
    ensures TrimRight(TrimRight(s)) == TrimRight(s)
  {
    if s != "" && IsSpace(s[|s| - 1]) { TrimRightTwice(s[..|s| - 1]); }
  }

  /** White space at the end of a payload makes no difference to the key, whatever the subject is. */
  lemma TrailingSpaceIsIgnored(subject: string, payload: string)
    ensures EventKey(subject, payload) == EventKey(subject, TrimRight(payload))
  {
    var head := subject + ":";
    TrimLeftKeepsTail(head, payload);
    TrimLeftKeepsTail(head, TrimRight(payload));
    TrimRightKeepsHead(TrimLeft(head), payload);
    TrimRightKeepsHead(TrimLeft(head), TrimRight(payload));
    TrimRightTwice(payload);
  }
}
