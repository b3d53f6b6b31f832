/** What the window's draft holds after the core's composer actions: the last leg of a prompt
    that was given back. */
module Drafting {
  import opened Text
  import opened Screens
  import opened Delivery
  import WindowSync

  lemma {:induction false} ContainsSelf(s: string)
    ensures Contains(s, s)
  {
    assert s[0..|s|] == s;
  }

  lemma {:induction false} ContainedInEither(before: string, part: string, after: string, s: string)
    requires Contains(part, s)
    ensures Contains(before + part + after, s)
  {
    var i, j :| 0 <= i <= j <= |part| && part[i..j] == s;
    var whole := before + part + after;
    assert whole[|before| + i..|before| + j] == part[i..j];
  }

  /** Paths are kept in order, none twice that was not there twice. */
  lemma {:induction false} MergedPathsSpec(have: seq<string>, add: seq<string>)
    ensures have <= MergedPaths(have, add)
    ensures forall p :: p in MergedPaths(have, add) <==> p in have || p in add
    ensures forall i, j :: |have| <= j < |MergedPaths(have, add)| && 0 <= i < j
              ==> MergedPaths(have, add)[i] != MergedPaths(have, add)[j]
  {
    if add != [] {
      var n := |add| - 1;
      MergedPathsSpec(have, add[..n]);
      assert add == add[..n] + [add[n]];
    }
  }

  /** A restored prompt is in the draft afterwards, in front of what was typed since; and what
      was typed or attached since is there still. */
  lemma {:induction false} RestoringKeepsBoth(v: View, text: string, files: seq<string>)
    ensures var after := Drafted(v, Restore(text, files));
      && (!IsBlank(text) ==> text <= after.draft)
      && (!IsBlank(v.draft) ==> Contains(after.draft, v.draft))
      && (forall p :: p in after.files <==> p in v.files || p in files)
  {
    MergedPathsSpec(v.files, files);
    ContainsSelf(v.draft);
    if !IsBlank(text) && !IsBlank(v.draft) {
      ContainedInEither(text + "\n\n", v.draft, "", v.draft);
      assert text + "\n\n" + v.draft + "" == text + "\n\n" + v.draft;
      assert text <= text + "\n\n" + v.draft;
    }
  }

  lemma {:induction false} StaysInDraft(v: View, action: ComposerAction, s: string)
    requires action.Restore? && !IsBlank(s) && Contains(v.draft, s)
    ensures Contains(Drafted(v, action).draft, s)
    ensures forall p :: p in v.files ==> p in Drafted(v, action).files
  {
    MergedPathsSpec(v.files, action.files);
    if !IsBlank(action.text) && !IsBlank(v.draft) {
      ContainedInEither(action.text + "\n\n", v.draft, "", s);
      assert action.text + "\n\n" + v.draft + "" == action.text + "\n\n" + v.draft;
    } else if IsBlank(v.draft) {
      PartOfBlankIsBlank(v.draft, s);
    }
  }

  lemma {:induction false} PartOfBlankIsBlank(whole: string, s: string)
    requires IsBlank(whole) && Contains(whole, s)
    ensures IsBlank(s)
  {
    BlankIsAllWhiteSpace(whole);
    BlankIsAllWhiteSpace(s);
    var i, j :| 0 <= i <= j <= |whole| && whole[i..j] == s;
    forall k | 0 <= k < |s| ensures IsBlankChar(s[k]) {
      assert s[k] == whole[i + k];
    }
  }

  /** However many prompts come back before the window looks: each of them, its text and its
      files, is in the draft, unless the draft was cleared after it. */
  lemma {:induction false} EveryRestoredPromptIsInTheDraft(v: View, actions: seq<ComposerAction>, k: nat)
    requires k < |actions| && actions[k].Restore?
    requires forall i :: k < i < |actions| ==> actions[i].Restore?
    ensures var after := DraftedAll(v, actions);
      && (!IsBlank(actions[k].text) ==> Contains(after.draft, actions[k].text))
      && (forall p :: p in actions[k].files ==> p in after.files)
  {
    var n := |actions| - 1;
    var before := DraftedAll(v, actions[..n]);
    if k == n {
      RestoringKeepsBoth(before, actions[k].text, actions[k].files);
      if !IsBlank(actions[k].text) {
        var draft := Drafted(before, actions[k]).draft;
        assert draft[0..|actions[k].text|] == actions[k].text;
      }
    } else {
      EveryRestoredPromptIsInTheDraft(v, actions[..n], k);
      MergedPathsSpec(before.files, actions[n].files);
      if !IsBlank(actions[k].text) {
        StaysInDraft(before, actions[n], actions[k].text);
      }
    }
  }

  /** A cleared draft is empty until something is restored to it. */
  lemma {:induction false} ClearingEmpties(v: View, actions: seq<ComposerAction>)
    requires actions != [] && actions[|actions| - 1] == ClearDraft
    ensures DraftedAll(v, actions).draft == "" && DraftedAll(v, actions).files == []
  {
  }

  /** Over whole runs, however the actions are spread over the polls: after a poll each prompt the
      core gave back is in the window's draft with its files, unless the draft was cleared after
      it; and right after a clear the draft is empty. */
  lemma {:induction false} GivenBackPromptsReachTheWindow(ops: seq<WindowSync.Op>, k: nat)
    requires ops != [] && ops[|ops| - 1] == WindowSync.Poll
    requires k < |WindowSync.Composed(ops)|
    requires forall i :: k < i < |WindowSync.Composed(ops)| ==> WindowSync.Composed(ops)[i].Restore?
    ensures var action, v := WindowSync.Composed(ops)[k], WindowSync.Run(WindowSync.Started(), ops).view;
      if action.Restore? then
        && (!IsBlank(action.text) ==> Contains(v.draft, action.text))
        && (forall p :: p in action.files ==> p in v.files)
      else k == |WindowSync.Composed(ops)| - 1 ==> v.draft == "" && v.files == []
  {
    WindowSync.DraftIsUpToDate(ops);
    var actions := WindowSync.Composed(ops);
    if actions[k].Restore? {
      EveryRestoredPromptIsInTheDraft(WindowSync.Started().view, actions, k);
    } else if k == |actions| - 1 {
      ClearingEmpties(WindowSync.Started().view, actions);
    }
  }
}
