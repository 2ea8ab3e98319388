/**
 * The presence badge of components/chat/user-status-indicator.tsx: a size-class
 * lookup, the online dot and the viewing icon.
 */
module StatusIndicator {
  import opened Wrappers

  datatype Size = Sm | Md | Lg

  /** The class names a size selects for the dot, the icon and the container gap. */
  datatype SizeClasses = SizeClasses(dot: string, icon: string, container: string)

  /** `sizeClasses[size]`. */
  function SizeClassesOf(size: Size): SizeClasses {
    match size
    case Sm => SizeClasses("h-2.5 w-2.5", "h-4 w-4", "gap-1")
    case Md => SizeClasses("h-2.5 w-2.5", "h-4 w-4", "gap-1.5")
    case Lg => SizeClasses("h-3 w-3", "h-5 w-5", "gap-2")
  }

  /** "sm" and "md" differ only in the gap; "lg" changes the dot and the icon as well. */
  lemma SizeTable()
    ensures SizeClassesOf(Sm).dot == SizeClassesOf(Md).dot && SizeClassesOf(Sm).icon == SizeClassesOf(Md).icon
    ensures SizeClassesOf(Sm).container != SizeClassesOf(Md).container
    ensures SizeClassesOf(Lg).dot != SizeClassesOf(Md).dot && SizeClassesOf(Lg).icon != SizeClassesOf(Md).icon
    ensures forall s1: Size, s2: Size :: s1 != s2 ==> SizeClassesOf(s1).container != SizeClassesOf(s2).container
  {
  }

  /** The icon under the dot: `Eye` with its title, or the `EyeOff` alternative. */
  datatype ViewIcon = Eye(title: string, iconClass: string) | EyeOff(title: string, iconClass: string)

  /** The rendered badge. */
  datatype Indicator = Indicator(container: string, dotSize: string, dotColor: string, pulsing: bool,
                                 viewing: Option<ViewIcon>)

  /** The badge for the given props; an absent `showViewingStatus` is true and an absent `size` is "md". */
  function Render(isOnline: bool, isViewing: bool, showViewingStatus: Option<bool>, size: Option<Size>): (r: Indicator)
    ensures r.container == SizeClassesOf(size.GetOr(Md)).container && r.dotSize == SizeClassesOf(size.GetOr(Md)).dot
    ensures r.dotColor == (if isOnline then "bg-green-500" else "bg-muted-foreground/50")
    ensures r.pulsing <==> isOnline
    ensures r.viewing.Some? <==> isViewing && showViewingStatus != Some(false)
    ensures r.viewing.Some? ==> r.viewing.value.Eye? && r.viewing.value.title == "Currently viewing chat"
    ensures r.viewing.Some? ==> r.viewing.value.iconClass == SizeClassesOf(size.GetOr(Md)).icon
  {
    var sizes := SizeClassesOf(size.GetOr(Md));
    var show := showViewingStatus.GetOr(true);
    var icon :=
      if isViewing && show then
        Some(if isViewing then Eye("Currently viewing chat", sizes.icon)
             else EyeOff("Not viewing chat", sizes.icon))
      else None;
    Indicator(sizes.container, sizes.dot, if isOnline then "bg-green-500" else "bg-muted-foreground/50", isOnline, icon)
  }

  /** Omitting the optional props is the same as passing `true` and "md". */
  lemma DefaultsAreTrueAndMd(isOnline: bool, isViewing: bool)
    ensures Render(isOnline, isViewing, None, None) == Render(isOnline, isViewing, Some(true), Some(Md))
  {
  }
}
