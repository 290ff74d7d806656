/**
 * The role list page: the skip/limit it asks the roles query for, the guarded delete
 * handler, and its own page and page-size state.
 */
module ListRoles {
  import DataTable

  datatype Role = Role(id: int, name: string, displayName: string, isSystem: bool)

  /** The arguments of `useRoles(skip, limit)`. */
  datatype RolesQuery = RolesQuery(skip: int, limit: int)

  /** The rows the query asks for are the offsets `skip .. skip + limit`. */
  predicate InWindow(q: RolesQuery, offset: int) {
    q.skip <= offset < q.skip + q.limit
  }

  /** `useRoles((page - 1) * pageSize, pageSize)` */
  function Query(page: int, pageSize: int): (q: RolesQuery)
    ensures q.limit == pageSize
    ensures page >= 1 && pageSize >= 0 ==> q.skip >= 0
    ensures page == 1 ==> q.skip == 0
  {
    RolesQuery((page - 1) * pageSize, pageSize)
  }

  /** Each page's window starts where the previous one ends. */
  lemma ConsecutivePagesAdjacent(page: int, pageSize: int)
    ensures Query(page + 1, pageSize).skip == Query(page, pageSize).skip + Query(page, pageSize).limit
  {
  }

  /** With a positive page size, every row offset falls in the window of exactly one page,
      and that page is `offset / pageSize + 1`. */
  lemma {:induction false} EachOffsetOnOnePage(offset: nat, pageSize: int, page: int)
    requires pageSize >= 1 && page >= 1
    ensures InWindow(Query(page, pageSize), offset) <==> page == offset / pageSize + 1
  {
    var p := offset / pageSize + 1;
    assert offset == pageSize * (p - 1) + offset % pageSize;
    if page < p {
      assert (page - 1) * pageSize + pageSize == page * pageSize <= (p - 1) * pageSize by {
        MulMonotone(page, p - 1, pageSize);
      }
    } else if page > p {
      assert p * pageSize <= (page - 1) * pageSize by {
        MulMonotone(p, page - 1, pageSize);
      }
    }
  }

  lemma MulMonotone(a: int, b: int, c: nat)
    requires a <= b
    ensures a * c <= b * c
  {
  }

  const SystemRoleAlert := "Cannot delete system roles"

  const PromptStart := "Are you sure you want to delete role \""
  const PromptEnd := "\"?"

  /** The question `confirm` asks before a delete: the role's display name, in quotes. */
  function ConfirmPrompt(role: Role): (p: string)
    ensures |p| == |PromptStart| + |role.displayName| + |PromptEnd|
    ensures p[..|PromptStart|] == PromptStart
    ensures p[|PromptStart|..|PromptStart| + |role.displayName|] == role.displayName
    ensures p[|PromptStart| + |role.displayName|..] == PromptEnd
  {
    PromptStart + role.displayName + PromptEnd
  }

  /** Two roles get the same question exactly when they have the same display name. */
  lemma PromptIdentifiesRole(a: Role, b: Role)
    ensures ConfirmPrompt(a) == ConfirmPrompt(b) <==> a.displayName == b.displayName
  {
    if ConfirmPrompt(a) == ConfirmPrompt(b) {
      var n := |PromptStart|;
      assert |a.displayName| == |b.displayName|;
      assert a.displayName == ConfirmPrompt(a)[n..n + |a.displayName|];
    }
  }

  datatype DeleteOutcome =
    | Refused(alert: string)                // a system role: alerted, nothing asked, nothing sent
    | Declined(prompt: string)              // the user dismissed the confirmation
    | DeleteSent(prompt: string, id: int)   // confirmed: `deleteRoleMutation.mutateAsync(role.id)`

  /** `handleDelete(role)`, given the answer the user would give to the confirmation. */
  function HandleDelete(role: Role, confirmed: bool): (o: DeleteOutcome)
    ensures o.DeleteSent? <==> !role.isSystem && confirmed
    ensures o.DeleteSent? ==> o.id == role.id
    ensures o.Refused? <==> role.isSystem
    ensures o.Refused? ==> o.alert == SystemRoleAlert
    ensures !role.isSystem ==> !o.Refused? && o.prompt == ConfirmPrompt(role)
  {
    if role.isSystem then Refused(SystemRoleAlert)
    else if confirmed then DeleteSent(ConfirmPrompt(role), role.id)
    else Declined(ConfirmPrompt(role))
  }

  /** A system role's outcome does not depend on any answer: no confirmation is asked. */
  lemma SystemRoleNeverAsks(role: Role)
    requires role.isSystem
    ensures HandleDelete(role, true) == HandleDelete(role, false)
  {
  }

  /** The trash button is rendered for non-system roles only. */
  predicate ShowsDeleteButton(role: Role) {
    !role.isSystem
  }

  /** The button is missing exactly for system roles, and clicking one that is shown always
      asks with that role's prompt: the table never reaches the system-role alert. */
  lemma DeleteButtonAlwaysAsks(role: Role, confirmed: bool)
    ensures !ShowsDeleteButton(role) <==> role.isSystem
    ensures ShowsDeleteButton(role) ==>
              !HandleDelete(role, confirmed).Refused? && HandleDelete(role, confirmed).prompt == ConfirmPrompt(role)
  {
  }

  /** The table is told `total = roles.length`; since the query returns at most `pageSize`
      rows, the table always shows a single page and Next is never enabled. */
  lemma {:induction false} NextNeverEnabled(page: int, pageSize: int, shown: nat)
    requires page >= 1 && shown <= pageSize
    ensures DataTable.TotalPages(shown, pageSize) == 1
    ensures !DataTable.CanNext(page, pageSize, shown)
  {
    var d := DataTable.Max(1, pageSize);
    var q := DataTable.CeilDiv(shown, d);
    assert d * (q - 1) < shown <= d;
    if q > 1 {
      MulMonotone(1, q - 1, d);
    }
  }

  /** The page's own state cells. */
  class RolesPage {
    var page: int
    var pageSize: int

    constructor ()
      ensures page == 1 && pageSize == 10
      ensures CurrentQuery() == RolesQuery(0, 10)
    {
      page := 1;
      pageSize := 10;
    }

    function CurrentQuery(): RolesQuery
      reads this
    {
      Query(page, pageSize)
    }

    /** `onPageChange={setPage}`: the requested page is stored as is. */
    method OnPageChange(p: int)
      modifies this
      ensures page == p && pageSize == old(pageSize)
    {
      page := p;
    }

    /** `setPageSize(size)` then `setPage(1)`: the query restarts at offset 0. */
    method OnPageSizeChange(size: int)
      modifies this
      ensures page == 1 && pageSize == size
      ensures CurrentQuery() == RolesQuery(0, size)
    {
      pageSize := size;
      page := 1;
    }
  }
}
