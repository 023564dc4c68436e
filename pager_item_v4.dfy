/**
 * `FragmentPagerItem` of the support-library (v4) utilities: a pager page
 * described by a title, a width, a fragment class name and an extras bundle.
 * The page's position is stored in the extras under one fixed key when the
 * fragment is instantiated, and read back from a fragment's arguments.
 */
module PagerItemV4 {
  import opened Wrappers
  import opened JavaLang
  import opened Bundles

  const TAG: string := "FragmentPagerItem"
  const KEY_POSITION: string := TAG + ":Position"

  /** `PagerItem.DEFAULT_WIDTH`, a page as wide as the pager (`PagerItem` is not part of this model). */
  const DEFAULT_WIDTH: real := 1.0

  /** A fragment class, as far as the item uses it: `getName()`. */
  datatype FragmentClass = FragmentClass(name: string)

  /** `Fragment.instantiate(context, className, extras)`: a fragment of the class, with the extras as arguments. */
  datatype Fragment = Fragment(className: string, arguments: Bundle?)

  /** `hasPosition(extras)` */
  function HasPosition(extras: Bundle?): bool
    reads extras
  {
    extras != null && extras.ContainsKey(KEY_POSITION)
  }

  /** `getPosition(extras)`: the stored position, 0 without one. */
  function GetPosition(extras: Bundle?): int
    reads extras
  {
    if HasPosition(extras) then extras.GetInt(KEY_POSITION) else 0
  }

  /** Without a stored position there is none to report, and the position reads 0. */
  lemma AbsentPosition(extras: Bundle?)
    requires extras == null || KEY_POSITION !in extras.entries
    ensures !HasPosition(extras) && GetPosition(extras) == 0
  {
  }

  /** On a bundle the guard changes nothing: the position is the bundle's `int` under the key. */
  lemma PositionOfBundle(extras: Bundle)
    ensures GetPosition(extras) == IntIn(extras.entries, KEY_POSITION)
  {
  }

  /**
   * `setPosition(extras, position)`: stores the position under its key and
   * nothing else, so that it reads back; a null bundle throws.
   */
  method SetPosition(extras: Bundle?, position: int) returns (outcome: Outcome<Exception>)
    modifies extras
    ensures extras == null ==> outcome == Fail(NullPointer)
    ensures extras != null ==>
      && outcome == Pass
      && extras.entries == old(extras.entries)[KEY_POSITION := IntValue(position)]
      && HasPosition(extras) && GetPosition(extras) == position
  {
    if extras == null {
      return Fail(NullPointer);
    }
    extras.PutInt(KEY_POSITION, position);
    outcome := Pass;
  }

  class FragmentPagerItem {
    const title: string
    const width: real
    const className: string
    const extras: Bundle?

    constructor (title: string, width: real, className: string, extras: Bundle?)
      ensures this.title == title && this.width == width
      ensures this.className == className && this.extras == extras
    {
      this.title := title;
      this.width := width;
      this.className := className;
      this.extras := extras;
    }

    /**
     * `instantiate(context, position)`: writes the position into the item's
     * own extras, then creates the fragment with them as its arguments;
     * without extras the write throws.
     */
    method Instantiate(position: int) returns (r: Result<Fragment, Exception>)
      modifies extras
      ensures extras == null ==> r == Failure(NullPointer)
      ensures extras != null ==>
        && r == Success(Fragment(className, extras))
        && extras.entries == old(extras.entries)[KEY_POSITION := IntValue(position)]
        && GetPosition(r.value.arguments) == position
    {
      var outcome := SetPosition(extras, position);
      if outcome.Fail? {
        return Failure(outcome.error);
      }
      r := Success(Fragment(className, extras));
    }
  }

  /** `of(title, clazz)`: the default width and a new empty bundle. */
  method Of(title: string, clazz: FragmentClass) returns (item: FragmentPagerItem)
    ensures fresh(item) && item.title == title && item.width == DEFAULT_WIDTH && item.className == clazz.name
    ensures item.extras != null && fresh(item.extras) && item.extras.entries == map[]
  {
    item := OfWidth(title, DEFAULT_WIDTH, clazz);
  }

  /** `of(title, clazz, extras)`: the default width and the given bundle. */
  method OfExtras(title: string, clazz: FragmentClass, extras: Bundle?) returns (item: FragmentPagerItem)
    ensures fresh(item) && item.title == title && item.width == DEFAULT_WIDTH && item.className == clazz.name
    ensures item.extras == extras
  {
    item := OfWidthExtras(title, DEFAULT_WIDTH, clazz, extras);
  }

  /** `of(title, width, clazz)`: a new empty bundle. */
  method OfWidth(title: string, width: real, clazz: FragmentClass) returns (item: FragmentPagerItem)
    ensures fresh(item) && item.title == title && item.width == width && item.className == clazz.name
    ensures item.extras != null && fresh(item.extras) && item.extras.entries == map[]
  {
    var extras := new Bundle();
    item := OfWidthExtras(title, width, clazz, extras);
  }

  /** `of(title, width, clazz, extras)`: stores the class's name. */
  method OfWidthExtras(title: string, width: real, clazz: FragmentClass, extras: Bundle?) returns (item: FragmentPagerItem)
    ensures fresh(item) && item.title == title && item.width == width && item.className == clazz.name
    ensures item.extras == extras
  {
    item := new FragmentPagerItem(title, width, clazz.name, extras);
  }
}
