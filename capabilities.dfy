/**
 * The action names the verb handlers ask `can` and `can_cls` about.  Each
 * operation derives its own string, so a permission granted for one kind of
 * operation never answers for another.
 */
module Capabilities {

  /** Viewing an object serialized with profile `join`. */
  function View(join: string): string {
    "view_" + join
  }

  /** Assigning the attribute `key`. */
  function Edit(key: string): string {
    "edit_" + key
  }

  /** Running the named action, on an instance or on the class. */
  function Action(name: string): string {
    "action_" + name
  }

  /** Creating an object as the current user. */
  const ClassCreate := "class_create"

  /** Creating an object on behalf of another user. */
  const ClassCreateOther := "class_create_other"

  /** Deleting an object. */
  const DeleteCap := "delete"

  /** Each derivation can be undone: different arguments never share an action name. */
  lemma DerivationsInjective(a: string, b: string)
    ensures View(a) == View(b) ==> a == b
    ensures Edit(a) == Edit(b) ==> a == b
    ensures Action(a) == Action(b) ==> a == b
  {
    if View(a) == View(b) {
      assert a == View(a)[5..] && b == View(b)[5..];
    }
    if Edit(a) == Edit(b) {
      assert a == Edit(a)[5..] && b == Edit(b)[5..];
    }
    if Action(a) == Action(b) {
      assert a == Action(a)[7..] && b == Action(b)[7..];
    }
  }

  /** The six kinds of action name never collide with one another. */
  lemma DerivationsDistinct(a: string, b: string)
    ensures View(a) != Edit(b) && View(a) != Action(b) && Edit(a) != Action(b)
    ensures View(a) !in {ClassCreate, ClassCreateOther, DeleteCap}
    ensures Edit(a) !in {ClassCreate, ClassCreateOther, DeleteCap}
    ensures Action(a) !in {ClassCreate, ClassCreateOther, DeleteCap}
    ensures ClassCreate != ClassCreateOther && ClassCreate != DeleteCap && ClassCreateOther != DeleteCap
  {
    assert View(a)[0] == 'v' && Edit(b)[0] == 'e' && Action(b)[0] == 'a';
    assert Edit(a)[0] == 'e' && Action(a)[0] == 'a';
    assert ClassCreate[0] == 'c' && ClassCreateOther[0] == 'c' && DeleteCap[0] == 'd';
  }
}
