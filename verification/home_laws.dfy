/** Properties of the home tile component that relate several transitions. */
module HomeLaws {
  import opened Js
  import opened Remote
  import opened Home

  /** The quoting label never opens the modal nor changes the frame, whatever
      its record's option code and whatever the embed answer. */
  lemma QuotingLabelNeverOpensModal(ui: HomeUi, hh: HomeHelpers, embed: Response<EmbedData>)
    ensures var s := HandlerClickOpenModal(ui, hh, QuotingLabel, embed);
            s.ui.openModal == ui.openModal && s.ui.iframeUrl == ui.iframeUrl
  {
  }

  /** Closing the modal right after a click that opened it returns to a closed
      modal showing the record's URL in the (hidden) frame. */
  lemma CloseAfterOpen(ui: HomeUi, hh: HomeHelpers, value: string, embed: Response<EmbedData>)
    requires !ui.openModal
    ensures var shown := HandlerClickOpenModal(ui, hh, value, embed).ui;
            HandlerCloseModal(shown) == ui.(iframeUrl := shown.iframeUrl)
  {
  }

  /** Rendering is measured once: any later render leaves the state alone. */
  lemma RenderedOnce(ui: HomeUi, first: real, second: real)
    ensures RenderedCallback(RenderedCallback(ui, first), second) == RenderedCallback(ui, first)
  {
  }

  /** The first render of the freshly constructed component measures it and
      picks the compact class exactly below the small width. */
  lemma FirstRenderFromInitial(width: real)
    ensures var r := RenderedCallback(InitialHome(), width);
            && r.componentWidth == Some(width)
            && (r.className == "business-small" <==> width < SmallWidth)
            && (r.className == "business" <==> width >= SmallWidth)
  {
  }

  /** A tile click before the menu answer has arrived finds no record and
      throws, leaving the state as constructed. */
  lemma ClickBeforeLoadThrows(hh: HomeHelpers, value: string, embed: Response<EmbedData>)
    ensures HandlerClickOpenModal(InitialHome(), hh, value, embed) == HomeStep(InitialHome(), [Uncaught])
  {
  }
}
