/** Values shared by the stores and the page: optional values, chat messages and prompts. */
module Common {

  /** An optional value; `None` stands for a property that is `undefined` or `null`. */
  datatype Option<+T> = None | Some(value: T)

  /** The author of a message in a conversation. */
  datatype Role = System | User | Assistant

  /** One message of a conversation, as the streaming client reports it. */
  datatype Message = Message(id: string, role: Role, content: string)

  /** A reusable system prompt: its body may hold a date placeholder resolved at use time. */
  datatype Prompt = Prompt(id: string, title: string, prompt: string, tags: seq<string>)

  /** No element occurs twice. */
  predicate Distinct<T(==)>(xs: seq<T>) {
    forall i, j :: 0 <= i < j < |xs| ==> xs[i] != xs[j]
  }

  /** Putting a new element in front keeps a sequence free of duplicates. */
  lemma DistinctCons<T>(x: T, xs: seq<T>)
    requires Distinct(xs) && x !in xs
    ensures Distinct([x] + xs)
  {
    forall i, j | 0 <= i < j < |[x] + xs|
      ensures ([x] + xs)[i] != ([x] + xs)[j]
    {
      if i == 0 {
        assert ([x] + xs)[j] == xs[j - 1];
      }
    }
  }
}
