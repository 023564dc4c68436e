/**
 * `FragmentPagerItem` of the framework-fragment (v13) utilities: a pager page
 * described by a title, a width, a fragment class name and an arguments bundle.
 * The page's position is stored in the arguments under one fixed key when the
 * fragment is instantiated, and read back from a fragment's arguments.
 */
module PagerItemV13 {
  import opened Wrappers
  import opened JavaLang
  import opened Bundles

  const TAG: string := "FragmentPagerItem"
  const KEY_POSITION: string := TAG + ":Position"

  /** `PagerItem.DEFAULT_WIDTH`, a page as wide as the pager (`PagerItem` is not part of this model). */
  const DEFAULT_WIDTH: real := 1.0

  /** A fragment class, as far as the item uses it: `getName()`. */
  datatype FragmentClass = FragmentClass(name: string)

  /** `Fragment.instantiate(context, className, args)`: a fragment of the class, with the args as arguments. */
  datatype Fragment = Fragment(className: string, arguments: Bundle?)

  /** `hasPosition(args)` */
  function HasPosition(args: Bundle?): bool
    reads args
  {
    args != null && args.ContainsKey(KEY_POSITION)
  }

  /** `getPosition(args)`: the stored position, 0 without one. */
  function GetPosition(args: Bundle?): int
    reads args
  {
    if HasPosition(args) then args.GetInt(KEY_POSITION) else 0
  }

  /** Without a stored position there is none to report, and the position reads 0. */
  lemma AbsentPosition(args: Bundle?)
    requires args == null || KEY_POSITION !in args.entries
    ensures !HasPosition(args) && GetPosition(args) == 0
  {
  }

  /** On a bundle the guard changes nothing: the position is the bundle's `int` under the key. */
  lemma PositionOfBundle(args: Bundle)
    ensures GetPosition(args) == IntIn(args.entries, KEY_POSITION)
  {
  }

  /**
   * `setPosition(args, position)`: stores the position under its key and
   * nothing else, so that it reads back; a null bundle throws.
   */
  method SetPosition(args: Bundle?, position: int) returns (outcome: Outcome<Exception>)
    modifies args
    ensures args == null ==> outcome == Fail(NullPointer)
    ensures args != null ==>
      && outcome == Pass
      && args.entries == old(args.entries)[KEY_POSITION := IntValue(position)]
      && HasPosition(args) && GetPosition(args) == position
  {
    if args == null {
      return Fail(NullPointer);
    }
    args.PutInt(KEY_POSITION, position);
    outcome := Pass;
  }

  class FragmentPagerItem {
    const title: string
    const width: real
    const className: string
    const args: Bundle?

    constructor (title: string, width: real, className: string, args: Bundle?)
      ensures this.title == title && this.width == width
      ensures this.className == className && this.args == args
    {
      this.title := title;
      this.width := width;
      this.className := className;
      this.args := args;
    }

    /**
     * `instantiate(context, position)`: writes the position into the item's
     * own args, then creates the fragment with them as its arguments;
     * without args the write throws.
     */
    method Instantiate(position: int) returns (r: Result<Fragment, Exception>)
      modifies args
      ensures args == null ==> r == Failure(NullPointer)
      ensures args != null ==>
        && r == Success(Fragment(className, args))
        && args.entries == old(args.entries)[KEY_POSITION := IntValue(position)]
        && GetPosition(r.value.arguments) == position
    {
      var outcome := SetPosition(args, position);
      if outcome.Fail? {
        return Failure(outcome.error);
      }
      r := Success(Fragment(className, args));
    }
  }

  /** `of(title, clazz)`: the default width and a new empty bundle. */
  method Of(title: string, clazz: FragmentClass) returns (item: FragmentPagerItem)
    ensures fresh(item) && item.title == title && item.width == DEFAULT_WIDTH && item.className == clazz.name
    ensures item.args != null && fresh(item.args) && item.args.entries == map[]
  {
    item := OfWidth(title, DEFAULT_WIDTH, clazz);
  }

  /** `of(title, clazz, args)`: the default width and the given bundle. */
  method OfArgs(title: string, clazz: FragmentClass, args: Bundle?) returns (item: FragmentPagerItem)
    ensures fresh(item) && item.title == title && item.width == DEFAULT_WIDTH && item.className == clazz.name
    ensures item.args == args
  {
    item := OfWidthArgs(title, DEFAULT_WIDTH, clazz, args);
  }

  /** `of(title, width, clazz)`: a new empty bundle. */
  method OfWidth(title: string, width: real, clazz: FragmentClass) returns (item: FragmentPagerItem)
    ensures fresh(item) && item.title == title && item.width == width && item.className == clazz.name
    ensures item.args != null && fresh(item.args) && item.args.entries == map[]
  {
    var args := new Bundle();
    item := OfWidthArgs(title, width, clazz, args);
  }

  /** `of(title, width, clazz, args)`: stores the class's name. */
  method OfWidthArgs(title: string, width: real, clazz: FragmentClass, args: Bundle?) returns (item: FragmentPagerItem)
    ensures fresh(item) && item.title == title && item.width == width && item.className == clazz.name
    ensures item.args == args
  {
    item := new FragmentPagerItem(title, width, clazz.name, args);
  }
}
