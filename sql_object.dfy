/**
 * The SQL Object extension's configuration: one SQL locator, never null,
 * copied by reference when the configuration is forked.
 */
module SqlObjects {
  import opened Wrappers

  /** Which locator implementation an object is; how it finds SQL is not modelled. */
  datatype LocatorKind = AnnotationBased | Custom(name: string)

  /** A SQL locator object. */
  class SqlLocator {
    const kind: LocatorKind

    /** `new AnnotationSqlLocator()`. */
    constructor Annotation()
      ensures kind == AnnotationBased
    {
      kind := AnnotationBased;
    }

    constructor Of(kind: LocatorKind)
      ensures this.kind == kind
    {
      this.kind := kind;
    }
  }

  /** What `Objects.requireNonNull` throws. */
  datatype NullPointerException = NullPointerException

  class SqlObject {
    var sqlLocator: SqlLocator?

    /** The object invariant: the locator is never null. */
    ghost predicate Valid()
      reads this
    {
      sqlLocator != null
    }

    /** The default configuration: a new annotation-based locator. */
    constructor ()
      ensures Valid()
      ensures fresh(sqlLocator) && sqlLocator.kind == AnnotationBased
    {
      sqlLocator := new SqlLocator.Annotation();
    }

    /** The copy constructor: shares the parent's locator object. */
    constructor Copy(parent: SqlObject)
      ensures sqlLocator == parent.sqlLocator
      ensures Valid() <==> parent.Valid()
    {
      sqlLocator := parent.sqlLocator;
    }

    method GetSqlLocator() returns (l: SqlLocator?)
      ensures l == sqlLocator
      ensures Valid() ==> l != null
    {
      l := sqlLocator;
    }

    /**
     * `setSqlLocator(l)`: a null locator is refused with a
     * `NullPointerException` and the old one kept; otherwise `l` is
     * installed and the object itself is returned.
     */
    method SetSqlLocator(l: SqlLocator?) returns (r: Result<SqlObject, NullPointerException>)
      modifies this
      ensures l == null ==> r == Failure(NullPointerException) && sqlLocator == old(sqlLocator)
      ensures l != null ==> r == Success(this) && sqlLocator == l
      ensures old(Valid()) ==> Valid()
    {
      if l == null {
        return Failure(NullPointerException);
      }
      sqlLocator := l;
      r := Success(this);
    }

    /** `createCopy()`: a new, separate object with the same locator. */
    method CreateCopy() returns (c: SqlObject)
      ensures fresh(c)
      ensures c.sqlLocator == sqlLocator
      ensures c.Valid() <==> Valid()
    {
      c := new SqlObject.Copy(this);
    }
  }

  /** Setting the locator on a copy leaves the original's locator as it was. */
  method SetOnCopy(original: SqlObject, l: SqlLocator?) returns (copy: SqlObject, r: Result<SqlObject, NullPointerException>)
    requires original.Valid()
    ensures copy != original
    ensures original.sqlLocator == old(original.sqlLocator) && original.Valid()
    ensures l != null ==> copy.sqlLocator == l && r == Success(copy)
    ensures l == null ==> copy.sqlLocator == original.sqlLocator && r.Failure?
    ensures copy.Valid()
  {
    copy := original.CreateCopy();
    r := copy.SetSqlLocator(l);
  }

  /** Setting the locator on the original leaves an earlier copy's locator as it was. */
  method SetOnOriginal(original: SqlObject, l: SqlLocator?) returns (copy: SqlObject, r: Result<SqlObject, NullPointerException>)
    requires original.Valid()
    modifies original
    ensures copy != original
    ensures copy.sqlLocator == old(original.sqlLocator) && copy.Valid()
    ensures l != null ==> original.sqlLocator == l && r == Success(original)
    ensures l == null ==> original.sqlLocator == old(original.sqlLocator) && r.Failure?
    ensures original.Valid()
  {
    copy := original.CreateCopy();
    r := original.SetSqlLocator(l);
  }
}
