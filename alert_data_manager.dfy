/**
 * The demo app's `AlertDataManager` bookkeeping: every button saves the
 * fresh id of the alert it shows under its section, and
 * `dismissAlerts(forSections:)` dismisses every saved id of the listed
 * sections and forgets them.
 */
module DemoData {

  import opened Optional
  import opened AlertTypes
  import opened ContainerView
  import opened ContainerViewModel
  import opened PresentationManager
  import opened Library

  datatype AlertSectionType = Toasts | IslandBanner | CommonAlerts | InfoAlerts

  /** `alertIDsBySection`: section to the ids saved under it, oldest first. */
  type SectionIds = map<AlertSectionType, seq<string>>

  /** The ids saved under a section; none when it has no entry. */
  function IdsOf(ids: SectionIds, section: AlertSectionType): seq<string>
  {
    if section in ids then ids[section] else []
  }

  /**
   * `saveAlertID(_:forSection:)`: the section's list (created empty if the
   * section had none) with the id at its end; every other section as it was.
   */
  function Saved(ids: SectionIds, section: AlertSectionType, id: string): (saved: SectionIds)
    ensures section in saved && saved[section] == IdsOf(ids, section) + [id]
    ensures forall other :: other != section ==> (other in saved <==> other in ids)
    ensures forall other :: other != section && other in ids ==> saved[other] == ids[other]
  {
    ids[section := IdsOf(ids, section) + [id]]
  }

  /** A run of saves, applied in order. */
  function SaveAll(ids: SectionIds, saves: seq<(AlertSectionType, string)>): SectionIds
    decreases |saves|
  {
    if saves == [] then ids else SaveAll(Saved(ids, saves[0].0, saves[0].1), saves[1..])
  }

  /** The ids of a run of saves that went to `section`, in the order they were saved. */
  function SavedUnder(saves: seq<(AlertSectionType, string)>, section: AlertSectionType): seq<string>
    decreases |saves|
  {
    if saves == [] then []
    else (if saves[0].0 == section then [saves[0].1] else []) + SavedUnder(saves[1..], section)
  }

  /** Ids within a section keep insertion order, whatever is saved to other sections in between. */
  lemma {:induction false} SavesKeepInsertionOrder(ids: SectionIds, saves: seq<(AlertSectionType, string)>, section: AlertSectionType)
    ensures IdsOf(SaveAll(ids, saves), section) == IdsOf(ids, section) + SavedUnder(saves, section)
    decreases |saves|
  {
    if saves != [] {
      SavesKeepInsertionOrder(Saved(ids, saves[0].0, saves[0].1), saves[1..], section);
    }
  }

  /** The table once the listed sections have been dismissed: their entries gone, the rest untouched. */
  function Remaining(ids: SectionIds, sections: seq<AlertSectionType>): (rest: SectionIds)
    ensures forall s :: s in rest <==> s in ids && s !in sections
    ensures forall s :: s in rest ==> rest[s] == ids[s]
  {
    ids - (set s | s in sections)
  }

  /**
   * The ids `dismissAlerts(forSections:)` passes to `dismissAlert`, in call
   * order: section by section, the ids still saved under it. A section
   * listed twice is skipped the second time, its entry being gone.
   */
  function DismissOrder(ids: SectionIds, sections: seq<AlertSectionType>): seq<string>
    decreases |sections|
  {
    if sections == [] then []
    else
      var earlier := sections[..|sections| - 1];
      DismissOrder(ids, earlier) + IdsOf(Remaining(ids, earlier), sections[|sections| - 1])
  }

  /** Every saved id of each listed section, section after section, in saved order. */
  function IdsListed(ids: SectionIds, sections: seq<AlertSectionType>): seq<string>
    decreases |sections|
  {
    if sections == [] then []
    else IdsListed(ids, sections[..|sections| - 1]) + IdsOf(ids, sections[|sections| - 1])
  }

  /** An id is dismissed iff it is saved under some listed section. */
  lemma {:induction false} DismissOrderCovers(ids: SectionIds, sections: seq<AlertSectionType>, id: string)
    ensures id in DismissOrder(ids, sections) <==> exists s :: s in sections && id in IdsOf(ids, s)
    decreases |sections|
  {
    if sections != [] {
      var earlier := sections[..|sections| - 1];
      var last := sections[|sections| - 1];
      DismissOrderCovers(ids, earlier, id);
      var tail := IdsOf(Remaining(ids, earlier), last);
      assert DismissOrder(ids, sections) == DismissOrder(ids, earlier) + tail;
      assert tail == if last in earlier then [] else IdsOf(ids, last);
      assert forall s :: s in sections <==> s in earlier || s == last by {
        assert sections == earlier + [last];
      }
    }
  }

  /**
   * With no section listed twice, `dismissAlerts` dismisses exactly every
   * saved id of each listed section, in stored order.
   */
  lemma {:induction false} DistinctSectionsDismissEverySavedId(ids: SectionIds, sections: seq<AlertSectionType>)
    requires forall i, j :: 0 <= i < j < |sections| ==> sections[i] != sections[j]
    ensures DismissOrder(ids, sections) == IdsListed(ids, sections)
    decreases |sections|
  {
    if sections != [] {
      var earlier := sections[..|sections| - 1];
      DistinctSectionsDismissEverySavedId(ids, earlier);
      assert sections[|sections| - 1] !in earlier;
    }
  }

  /** One more section dismissed: its entry is gone as well. */
  lemma RemainingStep(ids: SectionIds, sections: seq<AlertSectionType>, i: nat)
    requires i < |sections|
    ensures sections[i] in Remaining(ids, sections[..i]) ==>
      Remaining(ids, sections[..i + 1]) == Remaining(ids, sections[..i]) - {sections[i]}
    ensures sections[i] !in Remaining(ids, sections[..i]) ==>
      Remaining(ids, sections[..i + 1]) == Remaining(ids, sections[..i])
  {
    assert sections[..i + 1] == sections[..i] + [sections[i]];
    if sections[i] !in Remaining(ids, sections[..i]) {
      assert Remaining(ids, sections[..i]) - {sections[i]} == Remaining(ids, sections[..i]);
    }
  }

  /** One more section dismissed: the ids still saved under it are called next. */
  lemma DismissOrderStep(ids: SectionIds, sections: seq<AlertSectionType>, i: nat)
    requires i < |sections|
    ensures DismissOrder(ids, sections[..i + 1]) ==
      DismissOrder(ids, sections[..i]) + IdsOf(Remaining(ids, sections[..i]), sections[i])
  {
    assert sections[..i + 1][..i] == sections[..i];
  }

  /** The ids still saved under the i-th listed section are among those dismissed. */
  lemma SectionIdsAreDismissed(ids: SectionIds, sections: seq<AlertSectionType>, i: nat)
    requires i < |sections|
    ensures forall id :: id in IdsOf(Remaining(ids, sections[..i]), sections[i]) ==> id in DismissOrder(ids, sections)
  {
    forall id | id in IdsOf(Remaining(ids, sections[..i]), sections[i])
      ensures id in DismissOrder(ids, sections)
    {
      DismissOrderCovers(ids, sections, id);
      assert sections[i] in sections && id in IdsOf(ids, sections[i]);
    }
  }

  class AlertDataManager {
    const library: AlertLibrary
    var alertIDsBySection: SectionIds

    constructor()
      ensures fresh(library) && fresh(library.presentationManager) && fresh(library.presentationManager.overlayWindowManager)
      ensures library.presentationManager.Valid() && library.presentationManager.alerts == map[]
      ensures library.presentationManager.overlayWindowManager.overlayWindow == null
      ensures alertIDsBySection == map[]
    {
      library := new AlertLibrary();
      alertIDsBySection := map[];
    }

    method SaveAlertID(id: string, section: AlertSectionType)
      modifies this`alertIDsBySection
      ensures alertIDsBySection == Saved(old(alertIDsBySection), section, id)
    {
      if section !in alertIDsBySection {
        alertIDsBySection := alertIDsBySection[section := []];
      }
      alertIDsBySection := alertIDsBySection[section := alertIDsBySection[section] + [id]];
    }

    /** The registered view models of `ids`: what dismissing them may write. */
    ghost function ModelsOf(ids: seq<string>): set<object>
      reads library, library.presentationManager
    {
      var alerts := library.presentationManager.alerts;
      set id | id in alerts && id in ids :: alerts[id]
    }

    lemma ModelsOfGrows(ids: seq<string>, all: seq<string>)
      requires forall id :: id in ids ==> id in all
      ensures ModelsOf(ids) <= ModelsOf(all)
    {
    }

    /** Every registered id among `ids` has its view model's `shouldDismiss` set. */
    ghost predicate AllFlagged(ids: seq<string>)
      reads library, library.presentationManager, library.presentationManager.alerts.Values
    {
      var alerts := library.presentationManager.alerts;
      forall id :: id in ids && id in alerts ==> alerts[id].shouldDismiss
    }

    /** Since the earlier state the registry is the same and no `shouldDismiss` was cleared. */
    twostate predicate FlagsOnlyRise()
      reads library, library.presentationManager, library.presentationManager.alerts.Values
    {
      var alerts := library.presentationManager.alerts;
      && alerts == old(library.presentationManager.alerts)
      && forall id :: id in alerts && old(alerts[id].shouldDismiss) ==> alerts[id].shouldDismiss
    }

    twostate lemma FlaggedStays(ids: seq<string>)
      requires old(AllFlagged(ids)) && FlagsOnlyRise()
      ensures AllFlagged(ids)
    {
    }

    lemma FlaggedConcat(ids: seq<string>, more: seq<string>)
      requires AllFlagged(ids) && AllFlagged(more)
      ensures AllFlagged(ids + more)
    {
    }

    /** The inner `ids.forEach`: `dismissAlert` for each id, in order. */
    method DismissEach(ids: seq<string>)
      modifies ModelsOf(ids)
      ensures AllFlagged(ids) && FlagsOnlyRise()
    {
      for j := 0 to |ids|
        invariant AllFlagged(ids[..j]) && FlagsOnlyRise()
      {
        library.DismissAlert(ids[j]);
        assert ids[..j + 1] == ids[..j] + [ids[j]];
      }
      assert ids[..|ids|] == ids;
    }

    /**
     * One section of `dismissAlerts`: when it has an entry, `dismissAlert` for
     * each of its ids in order, then the entry is removed. `ids` is what was
     * dismissed. `scope` bounds the view models that may be written.
     */
    method DismissSection(section: AlertSectionType, ghost scope: seq<string>) returns (ghost ids: seq<string>)
      requires forall id :: id in IdsOf(alertIDsBySection, section) ==> id in scope
      modifies this`alertIDsBySection, ModelsOf(scope)
      ensures ids == IdsOf(old(alertIDsBySection), section)
      ensures section in old(alertIDsBySection) ==> alertIDsBySection == old(alertIDsBySection) - {section}
      ensures section !in old(alertIDsBySection) ==> alertIDsBySection == old(alertIDsBySection)
      ensures library.presentationManager.alerts == old(library.presentationManager.alerts)
      ensures AllFlagged(ids) && FlagsOnlyRise()
    {
      ids := [];
      if section in alertIDsBySection {
        var sectionIds := alertIDsBySection[section];
        ModelsOfGrows(sectionIds, scope);
        DismissEach(sectionIds);
        alertIDsBySection := alertIDsBySection - {section};
        ids := sectionIds;
      }
    }

    /**
     * `dismissAlerts(forSections:)`: each listed section in turn.
     * `dismissed` records the ids passed to `dismissAlert`, all of which are
     * then flagged; the registry itself is not changed.
     */
    method DismissAlerts(sections: seq<AlertSectionType>) returns (ghost dismissed: seq<string>)
      modifies this`alertIDsBySection, ModelsOf(DismissOrder(alertIDsBySection, sections))
      ensures dismissed == DismissOrder(old(alertIDsBySection), sections)
      ensures alertIDsBySection == Remaining(old(alertIDsBySection), sections)
      ensures AllFlagged(dismissed) && FlagsOnlyRise()
    {
      dismissed := [];
      ghost var saved := alertIDsBySection;
      ghost var scope := DismissOrder(saved, sections);
      ghost var registry := library.presentationManager.alerts;
      for i := 0 to |sections|
        invariant library.presentationManager.alerts == registry
        invariant alertIDsBySection == Remaining(saved, sections[..i])
        invariant dismissed == DismissOrder(saved, sections[..i])
        invariant AllFlagged(dismissed) && FlagsOnlyRise()
      {
        RemainingStep(saved, sections, i);
        DismissOrderStep(saved, sections, i);
        SectionIdsAreDismissed(saved, sections, i);
        label before:
        var ids := DismissSection(sections[i], scope);
        FlaggedStays@before(dismissed);
        FlaggedConcat(dismissed, ids);
        dismissed := dismissed + ids;
      }
      assert sections[..|sections|] == sections;
    }

    /**
     * A demo button: save the alert's fresh id under the button's section,
     * then show a new container with that configuration.
     */
    method PressButton(section: AlertSectionType, containerConfig: ContainerConfig,
                       foregroundSceneAvailable: bool, fittingSize: Option<Size>, window: WindowGeometry)
      returns (ghost viewModel: BasicContainerViewModel)
      requires library.presentationManager.Valid()
      modifies this`alertIDsBySection, library.presentationManager.Footprint()
      ensures alertIDsBySection == Saved(old(alertIDsBySection), section, containerConfig.id)
      ensures library.presentationManager.Valid()
      ensures library.presentationManager.OverlayKeptOrFresh()
      ensures fresh(viewModel) && !viewModel.shouldDismiss
      ensures library.presentationManager.alerts ==
        if ShowMounts(old(library.presentationManager.overlayWindowManager.overlayWindow) != null, foregroundSceneAvailable, fittingSize)
        then old(library.presentationManager.alerts)[containerConfig.id := viewModel]
        else old(library.presentationManager.alerts)
    {
      SaveAlertID(containerConfig.id, section);
      var container := new BasicContainerView(containerConfig, None);
      ghost var shown;
      shown := library.ShowAlert(container, foregroundSceneAvailable, fittingSize, window);
      viewModel := container.viewModel;
    }
  }

  /**
   * A toast is shown from its button. Dismissing the island-banner section,
   * under which nothing is saved, leaves it alone; dismissing the toasts
   * section tells it to dismiss.
   */
  method DismissingASectionFlagsOnlyItsAlerts() returns (afterOtherSection: bool, afterOwnSection: bool)
    ensures !afterOtherSection && afterOwnSection
  {
    var demo := new AlertDataManager();
    var manager := demo.library.presentationManager;
    ghost var toastModel;
    toastModel := demo.PressButton(Toasts, ContainerConfig("toast", Some(3.0), Top, [Swipe([Up], 20.0)]), true, Some(Size(360.0, 64.0)),
                                   WindowGeometry(Size(393.0, 852.0), EdgeInsets(59.0, 34.0)));
    assert [] + ["toast"] == ["toast"];
    assert [IslandBanner][..0] == [] && [Toasts][..0] == [];
    ghost var none := demo.DismissAlerts([IslandBanner]);
    afterOtherSection := manager.alerts["toast"].shouldDismiss;
    ghost var toasts := demo.DismissAlerts([Toasts]);
    afterOwnSection := manager.alerts["toast"].shouldDismiss;
  }

  /**
   * Saving two toasts and an info alert, then dismissing the toasts section:
   * the two toasts are dismissed in the order they were saved, and only the
   * info section's entry is left.
   */
  method DismissingOneSectionKeepsTheOthers() returns (dismissed: seq<string>, saved: SectionIds)
    ensures dismissed == ["toast-1", "toast-2"]
    ensures saved.Keys == {InfoAlerts} && saved[InfoAlerts] == ["info"]
  {
    var demo := new AlertDataManager();
    demo.SaveAlertID("toast-1", Toasts);
    demo.SaveAlertID("info", InfoAlerts);
    demo.SaveAlertID("toast-2", Toasts);
    assert [] + ["toast-1"] == ["toast-1"] && [] + ["info"] == ["info"];
    assert ["toast-1"] + ["toast-2"] == ["toast-1", "toast-2"];
    assert [Toasts][..0] == [];
    dismissed := IdsOf(demo.alertIDsBySection, Toasts);
    ghost var called := demo.DismissAlerts([Toasts]);
    assert called == dismissed;
    saved := demo.alertIDsBySection;
  }

}
