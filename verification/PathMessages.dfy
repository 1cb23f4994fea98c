/** The messages by which a stream tells the cleanup manager which local file it holds. */
module PathMessages {

  datatype Message = Retain(path: string) | Release(path: string)

  /** The file held after these messages, "" for none. */
  function Held(ms: seq<Message>): string {
    if ms == [] then ""
    else match ms[|ms| - 1]
      case Retain(p) => p
      case Release(_) => ""
  }

  /** Every file is released before another one is retained, and only the file that is held. */
  predicate Paired(ms: seq<Message>) {
    ms == [] ||
    (Paired(ms[..|ms| - 1]) &&
     match ms[|ms| - 1]
     case Retain(p) => p != "" && Held(ms[..|ms| - 1]) == ""
     case Release(p) => p != "" && Held(ms[..|ms| - 1]) == p)
  }

  lemma PairedNext(ms: seq<Message>, m: Message)
    requires Paired(ms)
    ensures (ms + [m])[..|ms|] == ms
    ensures Paired(ms + [m]) <==> match m
      case Retain(p) => p != "" && Held(ms) == ""
      case Release(p) => p != "" && Held(ms) == p
    ensures Held(ms + [m]) == match m case Retain(p) => p case Release(_) => ""
  {
  }

  /** What is sent when the local path becomes known or changes. */
  function Moved(from: string, to: string): seq<Message> {
    if to == "" || from == to then []
    else if from == "" then [Retain(to)]
    else [Release(from), Retain(to)]
  }

  /** What is sent when the stream ends. */
  function Ended(path: string): seq<Message> {
    if path == "" then [] else [Release(path)]
  }

  lemma MovedPaired(ms: seq<Message>, from: string, to: string)
    requires Paired(ms) && Held(ms) == from
    ensures Paired(ms + Moved(from, to))
    ensures Held(ms + Moved(from, to)) == if to == "" then from else to
  {
    if to == "" || from == to {
      assert ms + [] == ms;
    } else if from == "" {
      PairedNext(ms, Retain(to));
    } else {
      PairedNext(ms, Release(from));
      PairedNext(ms + [Release(from)], Retain(to));
      assert ms + [Release(from), Retain(to)] == ms + [Release(from)] + [Retain(to)];
    }
  }

  lemma EndedPaired(ms: seq<Message>, path: string)
    requires Paired(ms) && Held(ms) == path
    ensures Paired(ms + Ended(path)) && Held(ms + Ended(path)) == ""
  {
    if path == "" {
      assert ms + [] == ms;
    } else {
      PairedNext(ms, Release(path));
    }
  }
}
