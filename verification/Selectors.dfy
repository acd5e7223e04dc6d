/** Counted selectors: how many of the sessions use each. */
module Selectors {
  /** The selector of each session. */
  type Sels = map<string, string>

  type Refs = map<string, int>

  function Users(sels: Sels, sel: string): set<string> {
    set id | id in sels && sels[id] == sel
  }

  /** Every selector in use is listed with the number of its sessions, no other is. */
  ghost predicate Counted(refs: Refs, sels: Sels) {
    && (forall sel :: sel in refs <==> Users(sels, sel) != {})
    && (forall sel :: sel in refs ==> refs[sel] == |Users(sels, sel)|)
  }

  function Up(refs: Refs, sel: string): Refs {
    refs[sel := if sel in refs then refs[sel] + 1 else 1]
  }

  function Down(refs: Refs, sel: string): Refs {
    if sel !in refs then refs else if refs[sel] - 1 <= 0 then refs - {sel} else refs[sel := refs[sel] - 1]
  }

  lemma UsersMore(sels: Sels, id: string, of: string, sel: string)
    requires id !in sels
    ensures Users(sels[id := of], sel) == Users(sels, sel) + if sel == of then {id} else {}
  {
  }

  lemma UsersLess(sels: Sels, id: string, sel: string)
    requires id in sels
    ensures Users(sels - {id}, sel) == Users(sels, sel) - if sel == sels[id] then {id} else {}
  {
  }

  lemma CountedMore(refs: Refs, sels: Sels, id: string, of: string)
    requires Counted(refs, sels) && id !in sels
    ensures Counted(Up(refs, of), sels[id := of])
  {
    assert id !in Users(sels, of);
    hide Users;
    forall sel
      ensures sel in Up(refs, of) <==> Users(sels[id := of], sel) != {}
      ensures sel in Up(refs, of) ==> Up(refs, of)[sel] == |Users(sels[id := of], sel)|
    {
      UsersMore(sels, id, of, sel);
    }
  }

  lemma CountedLess(refs: Refs, sels: Sels, id: string)
    requires Counted(refs, sels) && id in sels
    ensures Counted(Down(refs, sels[id]), sels - {id})
  {
    var of := sels[id];
    assert id in Users(sels, of);
    assert |Users(sels, of) - {id}| == |Users(sels, of)| - 1;
    forall sel
      ensures sel in Down(refs, of) <==> Users(sels - {id}, sel) != {}
      ensures sel in Down(refs, of) ==> Down(refs, of)[sel] == |Users(sels - {id}, sel)|
    {
      UsersLess(sels, id, sel);
    }
  }
}
