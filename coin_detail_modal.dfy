/** The coin detail modal: shown on its own route, with the same
    wrap-around image navigation as the detail page, a delete confirmation,
    and the hand-off to the edit form. */
module CoinDetailModal {
  import opened JsText
  import opened ImageCarousel

  const ModalPath: string := "/coin-detail-view"
  const DashboardPath: string := "/collection-dashboard"
  const EditPath: string := "/add-edit-coin"
  const DeleteDelayMs: nat := 500

  /** The coin the modal shows; only what its handlers read. */
  datatype CoinData = CoinData(id: string, name: string, images: seq<string>)

  /** The three pictures of the coin the modal shows. */
  const ModalImages: seq<string> := ["/assets/images/coin-front.jpg", "/assets/images/coin-back.jpg", "/assets/images/coin-edge.jpg"]

  /** The state handed to the edit form. */
  datatype EditState = EditState(coinData: CoinData, isEdit: bool)

  /** What a handler asks the router to do. `NavigateLater` is a navigation
      behind a timer. */
  datatype Effect =
    | Navigate(path: string, state: Option<EditState>)
    | NavigateLater(delayMs: nat, path: string)

  /** The modal renders exactly on its own route; anywhere else it renders
      nothing. */
  predicate IsVisible(pathname: string)
  {
    pathname == ModalPath
  }

  class Modal {
    const coinData: CoinData
    var currentImageIndex: int
    var showDeleteConfirm: bool
    /** The effects requested so far, oldest first. */
    var effects: seq<Effect>

    ghost predicate Valid()
      reads this
    {
      |coinData.images| > 0 ==> 0 <= currentImageIndex < |coinData.images|
    }

    constructor (coinData: CoinData)
      ensures Valid()
      ensures this.coinData == coinData && currentImageIndex == 0 && !showDeleteConfirm && effects == []
    {
      this.coinData := coinData;
      currentImageIndex := 0;
      showDeleteConfirm := false;
      effects := [];
    }

    /** The arrows, shown only with more than one image, step exactly as the
        detail page's carousel does, so the index never leaves the list. */
    method HandleImageNavigation(direction: string)
      requires Valid() && ControlsShown(|coinData.images|)
      modifies this
      ensures Valid()
      ensures currentImageIndex == Step(old(currentImageIndex), |coinData.images|, direction)
      ensures showDeleteConfirm == old(showDeleteConfirm) && effects == old(effects)
    {
      StepStaysInRange(currentImageIndex, |coinData.images|, direction);
      var len := |coinData.images|;
      if direction == "prev" {
        currentImageIndex := if currentImageIndex == 0 then len - 1 else currentImageIndex - 1;
      } else {
        currentImageIndex := if currentImageIndex == len - 1 then 0 else currentImageIndex + 1;
      }
    }

    /** An indicator click jumps to that image. */
    method SelectIndicator(index: int)
      requires Valid() && ControlsShown(|coinData.images|) && 0 <= index < |coinData.images|
      modifies this
      ensures Valid()
      ensures currentImageIndex == index
      ensures showDeleteConfirm == old(showDeleteConfirm) && effects == old(effects)
    {
      currentImageIndex := index;
    }

    /** Delete only opens the confirmation; nothing is deleted yet. */
    method HandleDelete()
      requires Valid()
      modifies this
      ensures Valid()
      ensures showDeleteConfirm && effects == old(effects) && currentImageIndex == old(currentImageIndex)
    {
      showDeleteConfirm := true;
    }

    /** Cancel closes the confirmation and requests nothing. */
    method CancelDelete()
      requires Valid()
      modifies this
      ensures Valid()
      ensures !showDeleteConfirm && effects == old(effects) && currentImageIndex == old(currentImageIndex)
    {
      showDeleteConfirm := false;
    }

    /** Confirming returns to the dashboard after half a second. */
    method ConfirmDelete()
      requires Valid()
      modifies this
      ensures Valid()
      ensures effects == old(effects) + [NavigateLater(DeleteDelayMs, DashboardPath)]
      ensures showDeleteConfirm == old(showDeleteConfirm) && currentImageIndex == old(currentImageIndex)
    {
      effects := effects + [NavigateLater(DeleteDelayMs, DashboardPath)];
    }

    /** Edit opens the form in edit mode with this coin. */
    method HandleEdit()
      requires Valid()
      modifies this
      ensures Valid()
      ensures effects == old(effects) + [Navigate(EditPath, Some(EditState(coinData, true)))]
      ensures showDeleteConfirm == old(showDeleteConfirm) && currentImageIndex == old(currentImageIndex)
    {
      effects := effects + [Navigate(EditPath, Some(EditState(coinData, true)))];
    }

    /** The backdrop and the close button return to the dashboard. */
    method HandleClose()
      requires Valid()
      modifies this
      ensures Valid()
      ensures effects == old(effects) + [Navigate(DashboardPath, None)]
      ensures showDeleteConfirm == old(showDeleteConfirm) && currentImageIndex == old(currentImageIndex)
    {
      effects := effects + [Navigate(DashboardPath, None)];
    }
  }

  /** With the modal's three pictures every arrow press keeps the index on
      one of them, and the arrows are shown. */
  lemma ModalNavigationInBounds(index: int, direction: string)
    requires 0 <= index < |ModalImages|
    ensures ControlsShown(|ModalImages|)
    ensures 0 <= Step(index, |ModalImages|, direction) < 3
  {
    StepStaysInRange(index, |ModalImages|, direction);
  }
}
