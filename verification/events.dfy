/** Events an interface emits, and the order in which a well-behaved one emits
    them: (UP (UPDATE | LINK_UP)* DOWN | RELOAD)* with FREE as the last. */
module Events {

  datatype Event = Down | Up | Update | Free | Reload | LinkUp

  /** What happened so far, the latest last. */
  datatype History<T> = Nothing | Then(before: History<T>, last: T)

  /** h is how g began. */
  ghost predicate Began<T>(h: History<T>, g: History<T>) {
    h == g || (g.Then? && Began(h, g.before))
  }

  lemma {:induction false} BeganTransitive<T>(f: History<T>, g: History<T>, h: History<T>)
    requires Began(f, g) && Began(g, h)
    ensures Began(f, h)
  {
    if g != h { BeganTransitive(f, g, h.before); }
  }

  function Count<T>(h: History<T>): nat {
    if h.Nothing? then 0 else Count(h.before) + 1
  }

  datatype Life = Idle | Active | Gone | Broken

  function Next(l: Life, e: Event): Life {
    match e {
      case Up => if l == Idle then Active else Broken
      case Down => if l == Active then Idle else Broken
      case Update => if l == Active then Active else Broken
      case LinkUp => if l == Active then Active else Broken
      case Reload => if l == Idle then Idle else Broken
      case Free => if l == Idle then Gone else Broken
    }
  }

  function LifeOf(es: History<Event>): Life {
    if es.Nothing? then Idle else Next(LifeOf(es.before), es.last)
  }

  /** Whether the last UP or DOWN was an UP. */
  predicate EndsUp(es: History<Event>) {
    es.Then? && (es.last == Up || (es.last != Down && EndsUp(es.before)))
  }

  /** In a well-ordered history the last UP or DOWN tells whether it is active. */
  lemma {:induction false} ActiveIffEndsUp(es: History<Event>)
    requires LifeOf(es) != Broken
    ensures LifeOf(es) == Active <==> EndsUp(es)
  {
    if es.Then? {
      ActiveIffEndsUp(es.before);
    }
  }

  /** UP and DOWN alternate, starting with UP; DOWN, UPDATE and LINK_UP come
      only after their UP, RELOAD and FREE only while down, and nothing comes
      after FREE. */
  lemma {:induction false} Alternates(es: History<Event>, h: History<Event>)
    requires LifeOf(es) != Broken && Began(h, es) && h.Then?
    ensures LifeOf(h) != Broken
    ensures h.last == Up || h.last == Reload || h.last == Free <==> !EndsUp(h.before)
    ensures h.last == Free ==> h == es
  {
    if h == es {
      ActiveIffEndsUp(h.before);
    } else {
      Alternates(es.before, h);
    }
  }
}
