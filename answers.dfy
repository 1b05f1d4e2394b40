/** The answers an applicant has given, kept as an ordered association list
    keyed by question text (an assignment to an existing key keeps its place),
    and the log description rendered from them. */
module Answers {

  import opened Types

  datatype Entry = Entry(question: string, answer: string)

  type AnswerList = seq<Entry>

  /** The keys of the list, in insertion order. */
  function Questions(a: AnswerList): seq<string>
  {
    if a == [] then [] else [a[0].question] + Questions(a[1..])
  }

  /** The answer recorded under question q, if any. */
  function Lookup(a: AnswerList, q: string): Option<string>
  {
    if a == [] then None
    else if a[0].question == q then Some(a[0].answer)
    else Lookup(a[1..], q)
  }

  predicate Distinct(s: seq<string>)
  {
    forall i, j :: 0 <= i < j < |s| ==> s[i] != s[j]
  }

  /** Records answer t under question q: a known question keeps its position
      and gets the new answer, a new one is appended. */
  function Put(a: AnswerList, q: string, t: string): AnswerList
    decreases |a|
  {
    if a == [] then [Entry(q, t)]
    else if a[0].question == q then [Entry(q, t)] + a[1..]
    else [a[0]] + Put(a[1..], q, t)
  }

  /** A stored answer is found under its question and changes no other
      question's answer; a known question keeps its place in the key order,
      and a new one is appended at the end. */
  lemma {:induction false} PutSpec(a: AnswerList, q: string, t: string)
    ensures Questions(Put(a, q, t)) == if q in Questions(a) then Questions(a) else Questions(a) + [q]
    ensures q !in Questions(a) ==> Put(a, q, t) == a + [Entry(q, t)]
    ensures Lookup(Put(a, q, t), q) == Some(t)
    ensures forall k :: k != q ==> Lookup(Put(a, q, t), k) == Lookup(a, k)
    decreases |a|
  {
    if a != [] {
      if a[0].question == q {
        assert Put(a, q, t)[1..] == a[1..];
      } else {
        PutSpec(a[1..], q, t);
        assert Put(a, q, t)[1..] == Put(a[1..], q, t);
        assert a == [a[0]] + a[1..];
      }
    }
  }

  /** The distinct elements of s, each at the place of its first occurrence:
      the key order an answer list reaches when s is the order of assignments. */
  function FirstOccurrences(s: seq<string>): (r: seq<string>)
    ensures |r| <= |s|
    decreases |s|
  {
    if s == [] then []
    else
      var init, last := s[..|s| - 1], s[|s| - 1];
      if last in init then FirstOccurrences(init) else FirstOccurrences(init) + [last]
  }

  /** FirstOccurrences keeps every element of s, adds none and repeats none. */
  lemma {:induction false} FirstOccurrencesMembers(s: seq<string>)
    ensures forall x :: x in FirstOccurrences(s) <==> x in s
    ensures Distinct(FirstOccurrences(s))
    decreases |s|
  {
    if s != [] {
      var init, last := s[..|s| - 1], s[|s| - 1];
      assert s == init + [last];
      FirstOccurrencesMembers(init);
    }
  }

  /** One line of the application log: the question in bold, then the answer. */
  function Line(e: Entry): string
  {
    "**" + e.question + ":** " + e.answer
  }

  /** The log description: one line per entry, in list order, joined by newlines. */
  function Describe(a: AnswerList): string
  {
    if a == [] then ""
    else if |a| == 1 then Line(a[0])
    else Line(a[0]) + "\n" + Describe(a[1..])
  }

  /** The description is empty exactly when there are no answers, and
      otherwise starts with the first entry's line. */
  lemma DescribeSpec(a: AnswerList)
    ensures Describe(a) == "" <==> a == []
    ensures a != [] ==> Line(a[0]) <= Describe(a)
  {
    if a != [] {
      assert |Line(a[0])| > 0;
    }
  }

  /** Appending an entry appends its line, after a newline unless it is the first. */
  lemma {:induction false} DescribeAppend(a: AnswerList, e: Entry)
    ensures Describe(a + [e]) == if a == [] then Line(e) else Describe(a) + "\n" + Line(e)
    decreases |a|
  {
    if |a| == 1 {
      assert (a + [e])[1..] == [e];
    } else if |a| > 1 {
      assert (a + [e])[1..] == a[1..] + [e];
      DescribeAppend(a[1..], e);
    }
  }

  /** The entries pairing each question with its answer, in order. */
  function Zip(qs: seq<string>, ts: seq<string>): (r: AnswerList)
    requires |qs| == |ts|
  {
    seq(|qs|, i requires 0 <= i < |qs| => Entry(qs[i], ts[i]))
  }

  /** The zipped list has exactly the questions as keys, in order. */
  lemma {:induction false} ZipQuestions(qs: seq<string>, ts: seq<string>)
    requires |qs| == |ts|
    ensures Questions(Zip(qs, ts)) == qs
    decreases |qs|
  {
    if qs != [] {
      assert Zip(qs, ts)[1..] == Zip(qs[1..], ts[1..]);
      ZipQuestions(qs[1..], ts[1..]);
    }
  }

  /** With distinct questions, every question of the zipped list looks up its own answer. */
  lemma {:induction false} ZipLookup(qs: seq<string>, ts: seq<string>, i: nat)
    requires |qs| == |ts| && Distinct(qs) && i < |qs|
    ensures Lookup(Zip(qs, ts), qs[i]) == Some(ts[i])
    decreases |qs|
  {
    assert Zip(qs, ts)[1..] == Zip(qs[1..], ts[1..]);
    if i > 0 {
      ZipLookup(qs[1..], ts[1..], i - 1);
    }
  }
}
