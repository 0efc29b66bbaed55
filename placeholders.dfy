/**
 * Placeholder replacement in one run of the request template: every
 * placeholder of the map that occurs in the run's text is replaced
 * everywhere, one placeholder after the other in the map's iteration order,
 * and the run is rewritten only when some placeholder occurred.
 */
module Placeholders {
  import opened Text
  import opened Utils

  /** The text after trying the placeholders of `order`, in that order, each on the text left by those before it. */
  function ReplacedInOrder(text: string, replacements: map<string, string>, order: seq<string>): string
    requires forall p :: p in order ==> p in replacements
  {
    if order == [] then text
    else
      var before := ReplacedInOrder(text, replacements, order[..|order| - 1]);
      var p := order[|order| - 1];
      if HasSubstring(before, p) then ReplaceAll(before, p, replacements[p]) else before
  }

  /** Placeholders that do not occur leave the text as it is. */
  lemma {:induction false} NothingToReplace(text: string, replacements: map<string, string>, order: seq<string>)
    requires forall p :: p in order ==> p in replacements
    requires forall p :: p in order ==> !HasSubstring(text, p)
    ensures ReplacedInOrder(text, replacements, order) == text
  {
    if order != [] {
      NothingToReplace(text, replacements, order[..|order| - 1]);
      assert order[|order| - 1] in order;
    }
  }

  /**
   * The loop of replaceTextInRun on the run's text: `modified` tells whether
   * any placeholder occurred in the text, and an unmodified text is returned
   * as it was.
   */
  method ReplaceText(text: string, replacements: map<string, string>)
    returns (newText: string, modified: bool, ghost order: seq<string>)
    ensures IsOrderOf(order, replacements.Keys)
    ensures newText == ReplacedInOrder(text, replacements, order)
    ensures modified <==> exists p :: p in replacements && HasSubstring(text, p)
    ensures !modified ==> newText == text
  {
    newText := text;
    modified := false;
    order := [];
    var rest := replacements.Keys;
    while rest != {}
      invariant rest <= replacements.Keys
      invariant IsOrderOf(order, replacements.Keys - rest)
      invariant newText == ReplacedInOrder(text, replacements, order)
      invariant !modified ==> newText == text
      invariant modified <==> exists p :: p in order && HasSubstring(text, p)
      decreases |rest|
    {
      var placeholder :| placeholder in rest;
      OrderStep(order, replacements.Keys, rest, placeholder);
      assert (order + [placeholder])[..|order|] == order;
      ghost var order' := order + [placeholder];
      assert forall p :: p in order' <==> p in order || p == placeholder;
      if HasSubstring(newText, placeholder) {
        assert HasSubstring(text, placeholder) || modified;
        newText := ReplaceAll(newText, placeholder, replacements[placeholder]);
        modified := true;
      }
      order := order';
      rest := rest - {placeholder};
    }
  }

  /** A run of the document: its text elements, whose concatenation is the run's text. */
  class Run {
    var texts: seq<string>

    constructor (texts: seq<string>)
      ensures this.texts == texts
    {
      this.texts := texts;
    }

    /** The run's text, as document.Run.Text returns it. */
    function Text(): string
      reads this
    {
      Concat(texts)
    }

    /**
     * replaceTextInRun: when some placeholder occurs in the run's text, the run
     * is cleared and gets the replaced text as its only element; otherwise it
     * is left untouched.
     */
    method ReplaceTextInRun(replacements: map<string, string>)
      modifies this
      ensures (exists p :: p in replacements && HasSubstring(old(Text()), p)) ==>
        exists order :: IsOrderOf(order, replacements.Keys)
          && texts == [ReplacedInOrder(old(Text()), replacements, order)]
      ensures (forall p :: p in replacements ==> !HasSubstring(old(Text()), p)) ==> texts == old(texts)
    {
      var newText, modified;
      ghost var order;
      newText, modified, order := ReplaceText(Text(), replacements);
      if modified {
        texts := [];
        texts := texts + [newText];
      }
    }
  }

  /** The text elements of a run, joined. */
  function Concat(texts: seq<string>): string
  {
    if texts == [] then [] else Concat(texts[..|texts| - 1]) + texts[|texts| - 1]
  }

  /** A rewritten run has one element, so its text is exactly the replaced text. */
  lemma ConcatOne(s: string)
    ensures Concat([s]) == s
  {
    assert [s][..0] == [];
  }
}
