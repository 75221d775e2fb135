/** The Android widget states the screens read and write. */
module Widgets {

  /** `View.VISIBLE`, `View.INVISIBLE`, `View.GONE`. */
  datatype Visibility = Visible | Invisible | Gone

  /** The states of a Material `BottomSheetBehavior`. */
  datatype SheetState = Dragging | Settling | Expanded | Collapsed | Hidden | HalfExpanded
}
