/** The per-session output queue: entries tagged `'output'` or `'error'`,
    and the drain that sorts them into the two line lists of a response. */
module OutputQueue {

  datatype Tag = Output | Error
  datatype Entry = Entry(tag: Tag, text: string)

  function Tags(q: seq<Entry>): seq<Tag> {
    if q == [] then [] else [q[0].tag] + Tags(q[1..])
  }

  function Count(tags: seq<Tag>, t: Tag): nat {
    if tags == [] then 0 else (if tags[0] == t then 1 else 0) + Count(tags[1..], t)
  }

  /** The texts of the entries tagged `t`, in queue order: what a drain
      appends to `output_lines` (t = Output) or `error_lines` (t = Error). */
  function Texts(q: seq<Entry>, t: Tag): (lines: seq<string>)
    ensures |lines| == Count(Tags(q), t)
  {
    if q == [] then []
    else if q[0].tag == t then [q[0].text] + Texts(q[1..], t)
    else Texts(q[1..], t)
  }

  function Outputs(q: seq<Entry>): seq<string> { Texts(q, Output) }
  function Errors(q: seq<Entry>): seq<string> { Texts(q, Error) }

  /** Rebuilds a queue from its tag sequence and the two line lists. */
  function Merge(tags: seq<Tag>, outs: seq<string>, errs: seq<string>): (q: seq<Entry>)
    requires |outs| == Count(tags, Output) && |errs| == Count(tags, Error)
    ensures |q| == |tags|
  {
    if tags == [] then []
    else if tags[0] == Output then [Entry(Output, outs[0])] + Merge(tags[1..], outs[1..], errs)
    else [Entry(Error, errs[0])] + Merge(tags[1..], outs, errs[1..])
  }

  /** Splitting loses, duplicates and reorders nothing: the two lists and the
      order of tags give back the queue. */
  lemma {:induction false} MergeSplit(q: seq<Entry>)
    ensures Merge(Tags(q), Outputs(q), Errors(q)) == q
  {
    if q != [] {
      MergeSplit(q[1..]);
    }
  }

  /** Draining in two parts gives the lists of draining at once. */
  lemma {:induction false} TextsAppend(a: seq<Entry>, b: seq<Entry>, t: Tag)
    ensures Texts(a + b, t) == Texts(a, t) + Texts(b, t)
  {
    if a == [] {
      assert a + b == b;
    } else {
      assert (a + b)[1..] == a[1..] + b;
      TextsAppend(a[1..], b, t);
    }
  }

  /** Every entry lands in exactly one of the two lists. */
  lemma {:induction false} SplitSizes(q: seq<Entry>)
    ensures |Outputs(q)| + |Errors(q)| == |q|
  {
    if q != [] {
      SplitSizes(q[1..]);
    }
  }

  /** Appending in two steps is appending once. */
  lemma AppendAssoc<T>(a: seq<T>, b: seq<T>, c: seq<T>)
    ensures (a + b) + c == a + (b + c)
  {
  }
}
