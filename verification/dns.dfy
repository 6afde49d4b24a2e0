/** The DNS responder: every A question of a query is answered with the
    access point's own address, every other question is left unanswered,
    and one reply goes back for every query. */
module Dns {
  import opened Basics
  import opened Mongoose

  /** Record type of an IPv4 address record. */
  const TypeA: nat := 1
  /** Lifetime, in seconds, of every answer. */
  const AnswerTtl: nat := 10

  /** The answer to one A question: same name and type, the address as data. */
  function AnswerFor(q: DnsQuestion, addr: Ipv4): (rec: DnsRecord)
    ensures rec.name == q.name && rec.ttl == AnswerTtl && rec.rdata == addr.Octets()
  {
    DnsRecord(q.name, TypeA, AnswerTtl, addr.Octets())
  }

  /** The A questions of a question section, in their original order. */
  function AQuestions(qs: seq<DnsQuestion>): (r: seq<DnsQuestion>)
    ensures |r| <= |qs|
    ensures forall k :: 0 <= k < |r| ==> r[k].rtype == TypeA && r[k] in qs
    ensures forall q :: q in qs && q.rtype == TypeA ==> q in r
  {
    if |qs| == 0 then []
    else if qs[0].rtype == TypeA then [qs[0]] + AQuestions(qs[1..])
    else AQuestions(qs[1..])
  }

  /** One answer per question, in the questions' order. */
  function Records(qs: seq<DnsQuestion>, addr: Ipv4): (r: seq<DnsRecord>)
    ensures |r| == |qs|
    ensures forall k :: 0 <= k < |r| ==> r[k] == AnswerFor(qs[k], addr)
  {
    if |qs| == 0 then [] else [AnswerFor(qs[0], addr)] + Records(qs[1..], addr)
  }

  /** The reply to a query: its id and questions echoed, one answer for
      each A question. */
  function ReplyTo(msg: DnsMessage, addr: Ipv4): DnsReply {
    DnsReply(msg.id, msg.questions, Records(AQuestions(msg.questions), addr))
  }

  /** Filtering a question section split in two filters each half. */
  lemma {:induction false} AQuestionsAppend(a: seq<DnsQuestion>, b: seq<DnsQuestion>)
    ensures AQuestions(a + b) == AQuestions(a) + AQuestions(b)
    decreases |a|
  {
    if |a| == 0 {
      assert a + b == b;
    } else {
      assert (a + b)[1..] == a[1..] + b;
      AQuestionsAppend(a[1..], b);
    }
  }

  /** Answering one more question appends at most one answer: exactly one,
      and for that question, when it is an A question. */
  lemma AnswersExtend(qs: seq<DnsQuestion>, q: DnsQuestion, addr: Ipv4)
    ensures Records(AQuestions(qs + [q]), addr)
         == Records(AQuestions(qs), addr) + (if q.rtype == TypeA then [AnswerFor(q, addr)] else [])
  {
    AQuestionsAppend(qs, [q]);
    assert AQuestions([q]) == if q.rtype == TypeA then [q] else [];
  }

  /** Counts the A questions of a question section. */
  function CountA(qs: seq<DnsQuestion>): nat {
    if |qs| == 0 then 0 else (if qs[0].rtype == TypeA then 1 else 0) + CountA(qs[1..])
  }

  /** The reply has exactly as many answers as the query has A questions. */
  lemma {:induction false} AnswerCount(qs: seq<DnsQuestion>)
    ensures |AQuestions(qs)| == CountA(qs)
    decreases |qs|
  {
    if |qs| > 0 {
      AnswerCount(qs[1..]);
    }
  }

  /** A query with no A question still gets a reply, with no answers. */
  lemma {:induction false} NoAQuestionNoAnswer(qs: seq<DnsQuestion>)
    requires forall k :: 0 <= k < |qs| ==> qs[k].rtype != TypeA
    ensures AQuestions(qs) == []
    decreases |qs|
  {
    if |qs| > 0 {
      NoAQuestionNoAnswer(qs[1..]);
    }
  }

  /** A query of A questions only gets one answer per question, in order. */
  lemma {:induction false} AllAQuestionsAnswered(qs: seq<DnsQuestion>)
    requires forall k :: 0 <= k < |qs| ==> qs[k].rtype == TypeA
    ensures AQuestions(qs) == qs
    decreases |qs|
  {
    if |qs| > 0 {
      AllAQuestionsAnswered(qs[1..]);
      assert qs == [qs[0]] + qs[1..];
    }
  }

  /** The DNS handler: walks the question section once, adding an answer
      for each A question, and sends one reply; events that are not DNS
      messages are ignored. */
  method HandleDnsEvent(ev: Event, addr: Ipv4) returns (action: DnsAction)
    ensures ev.DnsQuery? <==> action.SendReply?
    ensures action.SendReply? ==> action.reply == ReplyTo(ev.message, addr)
    ensures action.SendReply? ==> (
      && action.reply.id == ev.message.id
      && action.reply.questions == ev.message.questions
      && |action.reply.answers| == CountA(ev.message.questions)
      && forall k :: 0 <= k < |action.reply.answers| ==>
           var rec := action.reply.answers[k];
           rec.rtype == TypeA && rec.ttl == AnswerTtl && |rec.rdata| == 4 && rec.rdata == addr.Octets())
  {
    if !ev.DnsQuery? {
      return NoReply;
    }
    var msg := ev.message;
    var answers: seq<DnsRecord> := [];
    var i := 0;
    while i < |msg.questions|
      invariant 0 <= i <= |msg.questions|
      invariant answers == Records(AQuestions(msg.questions[..i]), addr)
    {
      var q := msg.questions[i];
      AnswersExtend(msg.questions[..i], q, addr);
      assert msg.questions[..i + 1] == msg.questions[..i] + [q];
      if q.rtype == TypeA {
        answers := answers + [AnswerFor(q, addr)];
      }
      i := i + 1;
    }
    assert msg.questions[..i] == msg.questions;
    AnswerCount(msg.questions);
    action := SendReply(DnsReply(msg.id, msg.questions, answers));
  }
}
