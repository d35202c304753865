/** Finite lists, head first. */
module Lists {

  datatype List<T> = Nil | Cons(head: T, tail: List<T>) {
    function Append(other: List<T>): List<T> {
      if Nil? then other else Cons(head, tail.Append(other))
    }

    function Length(): nat {
      if Nil? then 0 else 1 + tail.Length()
    }

    function Take(n: nat): List<T> {
      if Nil? || n == 0 then Nil else Cons(head, tail.Take(n - 1))
    }

    ghost predicate Has(x: T) {
      Cons? && (head == x || tail.Has(x))
    }
  }

  lemma {:induction false} AppendNil<T>(a: List<T>)
    ensures a.Append(Nil) == a
  {
    if a.Cons? { AppendNil(a.tail); }
  }

  lemma {:induction false} AppendAssoc<T>(a: List<T>, b: List<T>, c: List<T>)
    ensures a.Append(b).Append(c) == a.Append(b.Append(c))
  {
    if a.Cons? { AppendAssoc(a.tail, b, c); }
  }

  lemma {:induction false} HasAppend<T>(a: List<T>, b: List<T>, x: T)
    ensures a.Append(b).Has(x) <==> a.Has(x) || b.Has(x)
  {
    if a.Cons? { HasAppend(a.tail, b, x); }
  }
}
