// The AT query engine as the rest of the model sees it. The engine itself
// (a writer/reader thread pair around a device, source/libmodem/proto/at/
// at_queue.h and the mc7700 query functions) is not part of this model: a
// command goes in, and what comes back is either no answer (error or
// timeout) or the answer text together with the sub-match offsets that the
// command's reply pattern produced.

module AtExec {
  import opened Common
  import opened CStr
  import opened RegMatch

  /** What the engine hands back for one command. */
  datatype AtReply = NoAnswer | Answer(text: seq<byte>, subs: seq<Capture>)

  /**
   * Every reply pattern used by the modelled handlers has at most two
   * groups, so the engine's sub-match array holds at least the whole match
   * and two groups, all inside the answer text; the text is a C string.
   */
  predicate ValidReply(r: AtReply)
  {
    r.Answer? ==>
      && |r.subs| >= 3
      && NulFree(r.text)
      && forall i | 0 <= i < |r.subs| :: r.subs[i].Within(|r.text|)
  }

  /** The bytes of group k of an answer. */
  function Group(r: AtReply, k: nat): (g: seq<byte>)
    requires r.Answer? && ValidReply(r) && k < 3
    ensures NulFree(g)
  {
    Slice(r.text, r.subs[k])
  }

  /** The engine's answer to one command, the commands it was sent, and what the caller made of it. */
  datatype Exchange<+T> = Exchange(sent: seq<seq<byte>>, result: T)
}
