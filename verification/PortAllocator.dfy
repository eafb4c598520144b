/** The allocator's class: one task at a time, with a probe that answers the same throughout a call. */
module PortAllocator {
  import opened Wrappers
  import opened Ports

  class Allocator {
    const range: Range
    const probe: int -> bool
    /** port to project */
    var reserved: Reservations
    /** project to its latest port */
    var sticky: map<ProjectId, nat>
    /** what the store has */
    var saved: map<ProjectId, nat>
    var loaded: bool

    constructor (range: Range, probe: int -> bool, saved: map<ProjectId, nat>)
      ensures this.range == range && this.probe == probe && this.saved == saved
      ensures reserved == map[] && sticky == map[] && !loaded
    {
      this.range, this.probe, this.saved := range, probe, saved;
      reserved, sticky, loaded := map[], map[], false;
    }

    /** The sticky ports as the next call sees them. */
    function Sticky(): map<ProjectId, nat>
      reads this
    {
      if loaded then sticky else saved
    }

    function Last(project: ProjectId): Option<int>
      reads this
    {
      if project in Sticky() then Some(Sticky()[project]) else None
    }

    method EnsureLoaded()
      modifies this
      ensures loaded && sticky == old(Sticky()) && reserved == old(reserved) && saved == old(saved)
    {
      if loaded { return; }
      sticky := saved;
      loaded := true;
    }

    method FindOwn(project: ProjectId) returns (mine: Option<int>)
      ensures if mine.Some? then Holds(reserved, project, mine.value) else forall p :: !Holds(reserved, project, p)
    {
      var rest := reserved.Keys;
      while rest != {}
        invariant rest <= reserved.Keys
        invariant forall p :: p in reserved && p !in rest ==> reserved[p] != project
        decreases rest
      {
        var p :| p in rest;
        if reserved[p] == project { return Some(p); }
        rest := rest - {p};
      }
      return None;
    }

    method TryPort(project: ProjectId, p: int) returns (ok: bool)
      ensures ok == Acceptable(reserved, project, p, probe)
    {
      if p < 1 || p > 65535 { return false; }
      if p in reserved && reserved[p] != project { return false; }
      return probe(p);
    }

    method TryPortWithGrace(project: ProjectId, p: int, last: Option<int>) returns (ok: bool)
      ensures ok == Acceptable(reserved, project, p, probe)
    {
      var retries := if last == Some(p) then 4 else 0;
      ok := false;
      for i := 0 to retries + 1
        invariant i > 0 ==> !Acceptable(reserved, project, p, probe)
      {
        ok := TryPort(project, p);
        if ok { return true; }
      }
      return false;
    }

    /** The first open port of a scan, or none. */
    method ScanUp(project: ProjectId, lo: int, hi: int) returns (found: Option<int>)
      ensures if found.Some? then LeastOpen(reserved, project, lo, hi, probe, found.value)
              else NoneOpen(reserved, project, lo, hi, probe)
    {
      var p := lo;
      while p <= hi
        invariant forall q :: lo <= q < p ==> !Open(reserved, project, q, probe)
        invariant p >= lo
      {
        if p !in AVOID {
          var ok := TryPort(project, p);
          if ok { return Some(p); }
        }
        p := p + 1;
      }
      return None;
    }

    /** `choose`, against the documented order of preference. */
    method Choose(w: Wish) returns (c: Result<int, PortError>)
      requires OnePort(reserved)
      modifies this
      ensures Choice(reserved, old(Last(w.project)), w, range, probe, c)
      ensures reserved == old(reserved) && sticky == old(Sticky()) && loaded && saved == old(saved)
    {
      hide Acceptable, Open;
      EnsureLoaded();
      var mine := FindOwn(w.project);
      if mine.Some? && (w.preferred.None? || w.preferred == mine) { return Ok(mine.value); }
      assert !KeepsOwn(reserved, w);
      var last := if w.project in sticky then Some(sticky[w.project]) else None;
      if w.preferred.Some? {
        var ok := TryPortWithGrace(w.project, w.preferred.value, last);
        if ok { return Ok(w.preferred.value); }
        if w.strict { return Err(PORT_UNAVAILABLE); }
      }
      if last.Some? && last != w.preferred {
        var ok := TryPortWithGrace(w.project, last.value, last);
        if ok { return Ok(last.value); }
      }
      var start := if w.preferred.Some? then w.preferred.value else range.lo;
      var near := ScanUp(w.project, start + 1, Min(start + 100, range.hi));
      if near.Some? { return Ok(near.value); }
      var any := ScanUp(w.project, range.lo, range.hi);
      if any.Some? { return Ok(any.value); }
      return Err(PORT_UNAVAILABLE);
    }

    method CommitPort(project: ProjectId, port: nat)
      modifies this
      ensures reserved == Commit(old(reserved), project, port)
      ensures sticky == old(sticky)[project := port] && saved == old(saved)[project := port] && loaded == old(loaded)
    {
      var rest := reserved.Keys;
      ghost var before := reserved;
      while rest != {}
        invariant rest <= before.Keys && sticky == old(sticky) && saved == old(saved) && loaded == old(loaded)
        invariant forall p :: p in reserved <==> p in before && (p in rest || before[p] != project)
        invariant forall p :: p in reserved ==> reserved[p] == before[p]
        decreases rest
      {
        var p :| p in rest;
        if reserved[p] == project { reserved := reserved - {p}; }
        rest := rest - {p};
      }
      assert reserved == Without(before, project);
      reserved := reserved[port := project];
      sticky := sticky[project := port];
      saved := saved[project := port];
    }

    /** `allocate` run on its own: the chosen port is reserved for the project, and nobody else loses anything. */
    method Allocate(w: Wish) returns (c: Result<int, PortError>)
      requires OnePort(reserved)
      modifies this
      ensures OnePort(reserved) && Choice(old(reserved), old(Last(w.project)), w, range, probe, c)
      ensures c.Err? ==> reserved == old(reserved)
      ensures c.Ok? ==> reserved == Commit(old(reserved), w.project, c.value) && Last(w.project) == Some(c.value)
      ensures forall p, other :: other != w.project ==> (Holds(reserved, other, p) <==> Holds(old(reserved), other, p))
    {
      ghost var before := reserved;
      c := Choose(w);
      if c.Err? { return; }
      CommitHolds(before, w.project, c.value);
      ChosenIsFree(before, w, c.value);
      if c.value in reserved && reserved[c.value] == w.project && w.project in sticky && sticky[w.project] == c.value {
        assert reserved == Commit(before, w.project, c.value);
        return;
      }
      CommitPort(w.project, c.value);
    }

    /** The choice is never a port another project holds. */
    lemma ChosenIsFree(before: Reservations, w: Wish, p: int)
      requires exists last :: Choice(before, last, w, range, probe, Ok(p))
      ensures p in before ==> before[p] == w.project
    {}

    /** `peek` answers what `allocate` would, and reserves nothing. */
    method Peek(project: ProjectId, preferred: Option<int>) returns (c: Result<int, PortError>)
      requires OnePort(reserved)
      modifies this
      ensures Choice(old(reserved), old(Last(project)), Wish(project, preferred, false), range, probe, c)
      ensures reserved == old(reserved) && Last(project) == old(Last(project)) && saved == old(saved)
    {
      c := Choose(Wish(project, preferred, false));
    }

    /** `adopt` records a port whoever holds it; it takes a reservation away exactly when another project had the port. */
    method Adopt(project: ProjectId, port: nat)
      requires OnePort(reserved)
      modifies this
      ensures OnePort(reserved) && reserved == Commit(old(reserved), project, port)
      ensures (exists p, other :: other != project && Holds(old(reserved), other, p) && !Holds(reserved, other, p)) <==>
              (port in old(reserved) && old(reserved)[port] != project)
    {
      ghost var before := reserved;
      CommitPort(project, port);
      CommitHolds(before, project, port);
      if port in before && before[port] != project {
        assert Holds(before, before[port], port) && !Holds(reserved, before[port], port);
      }
    }

    /** `release` gives the project's port back and keeps its sticky mapping. */
    method Release(project: ProjectId) returns (p: Option<int>)
      requires OnePort(reserved)
      modifies this
      ensures OnePort(reserved) && reserved == Without(old(reserved), project)
      ensures if p.Some? then Holds(old(reserved), project, p.value) else reserved == old(reserved)
      ensures sticky == old(sticky) && saved == old(saved) && loaded == old(loaded)
    {
      p := FindOwn(project);
      ghost var before := reserved;
      if p.Some? {
        assert forall q :: Holds(before, project, q) ==> q == p.value;
        reserved := reserved - {p.value};
        assert reserved == Without(before, project);
      } else {
        assert forall q :: q in before ==> Holds(before, before[q], q);
        assert reserved == Without(before, project);
      }
    }
  }

  /** Peeking and then allocating the same wish gives the same answer. */
  method PeekThenAllocate(a: Allocator, project: ProjectId, preferred: Option<int>)
    returns (peeked: Result<int, PortError>, given: Result<int, PortError>)
    requires OnePort(a.reserved)
    modifies a
    ensures peeked == given
  {
    peeked := a.Peek(project, preferred);
    ghost var r, last := a.reserved, a.Last(project);
    given := a.Allocate(Wish(project, preferred, false));
    ChoiceIsUnique(r, last, Wish(project, preferred, false), a.range, a.probe, peeked, given);
  }

  /** Releasing a port and allocating again: the exact condition for getting the same port back. */
  method ReleaseThenAllocateAgain(a: Allocator, w: Wish) returns (q: Option<int>, c: Result<int, PortError>)
    requires OnePort(a.reserved)
    modifies a
    ensures q.Some? && 1 <= q.value <= 65535 && a.probe(q.value) && old(a.Last(w.project)) == q ==>
      (c == Ok(q.value) <==>
        || w.preferred == None || w.preferred == q
        || (!w.strict && !Acceptable(Without(old(a.reserved), w.project), w.project, w.preferred.value, a.probe)))
  {
    ghost var r := a.reserved;
    q := a.Release(w.project);
    c := a.Allocate(w);
    if q.Some? && 1 <= q.value <= 65535 && a.probe(q.value) && old(a.Last(w.project)) == q {
      ReleaseThenAllocate(r, w, q.value, a.range, a.probe, c);
    }
  }
}
