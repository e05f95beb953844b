/**
 Folding a MIME tree into one text, one HTML body and a list of attachments. Trees are already split and
 decoded; a node records whether its decoding, its boundary or its reader failed.
 */
module Mime {
  import opened Prelude
  import opened JobTable

  datatype Part =
    | Leaf(decodes: bool, mediaType: string, filename: string, disposition: string, contentId: string, body: string)
    | Multi(decodes: bool, hasBoundary: bool, parts: seq<Part>, endsCleanly: bool)

  datatype Attachment = Attachment(content: string, filename: string, disposition: string, contentId: string)

  datatype Content = Content(text: string, html: string, attachments: seq<Attachment>)

  const Nothing := Content("", "", [])

  // ----- The fold

  predicate IsAttachment(leaf: Part)
    requires leaf.Leaf?
  {
    leaf.filename != "" || ToLower(leaf.disposition) == "attachment"
  }

  function BuildAttachment(leaf: Part): Attachment
    requires leaf.Leaf?
  {
    Attachment(leaf.body,
               if leaf.filename == "" then "attachment.bin" else leaf.filename,
               if leaf.disposition == "" then "attachment" else leaf.disposition,
               leaf.contentId)
  }

  function LeafContent(leaf: Part): Content
    requires leaf.Leaf?
  {
    if IsAttachment(leaf) then Nothing.(attachments := [BuildAttachment(leaf)])
    else if leaf.mediaType == "text/plain" then Nothing.(text := TrimSpace(leaf.body))
    else if leaf.mediaType == "text/html" then Nothing.(html := TrimSpace(leaf.body))
    else Nothing
  }

  function MergeText(dst: string, src: string): string {
    if dst == "" then src else if src != "" && src != dst then dst + "\n" + src else dst
  }

  function AppendParsed(dst: Content, src: Content): Content {
    Content(MergeText(dst.text, src.text), MergeText(dst.html, src.html), dst.attachments + src.attachments)
  }

  function Fold(p: Part): Result<Content>
    decreases p, 1, 0
  {
    if !p.decodes then Err("decode transfer-encoding")
    else if p.Leaf? then Ok(LeafContent(p))
    else if !p.hasBoundary then Err("multipart part missing boundary")
    else
      var inner := FoldFirst(p.parts, |p.parts|);
      if inner.Err? || p.endsCleanly then inner else Err("next part")
  }

  function FoldFirst(parts: seq<Part>, n: nat): Result<Content>
    requires n <= |parts|
    decreases parts, 0, n
  {
    if n == 0 then Ok(Nothing)
    else
      var dst := FoldFirst(parts, n - 1);
      if dst.Err? then dst
      else
        var src := Fold(parts[n - 1]);
        if src.Err? then src else Ok(AppendParsed(dst.value, src.value))
  }

  /** parseContent: recursion over parts, a loop that appends each parsed part. */
  method ParseContent(p: Part) returns (r: Result<Content>)
    ensures r == Fold(p)
    decreases p
  {
    if !p.decodes {
      return Err("decode transfer-encoding");
    }
    if p.Leaf? {
      return Ok(LeafContent(p));
    }
    if !p.hasBoundary {
      return Err("multipart part missing boundary");
    }
    var out := Nothing;
    for i := 0 to |p.parts|
      invariant FoldFirst(p.parts, i) == Ok(out)
    {
      var src := ParseContent(p.parts[i]);
      if src.Err? {
        FirstError(p.parts, i + 1, |p.parts|);
        return src;
      }
      out := AppendParsed(out, src.value);
    }
    if !p.endsCleanly {
      return Err("next part");
    }
    r := Ok(out);
  }

  lemma {:induction false} FirstError(parts: seq<Part>, k: nat, n: nat)
    requires k <= n <= |parts| && FoldFirst(parts, k).Err?
    ensures FoldFirst(parts, n) == FoldFirst(parts, k)
    decreases n
  {
    if k < n {
      FirstError(parts, k, n - 1);
    }
  }

  // ----- When parsing succeeds

  /** No node of the tree fails to decode, lacks its boundary or breaks off. */
  predicate Sound(p: Part) {
    && p.decodes
    && (p.Multi? ==> p.hasBoundary && p.endsCleanly && forall q :: q in p.parts ==> Sound(q))
  }

  lemma {:induction false} ParsesIffSound(p: Part)
    ensures Fold(p).Ok? <==> Sound(p)
    decreases p, 1, 0
  {
    if p.Multi? {
      FirstParse(p.parts, |p.parts|);
      assert forall q :: q in p.parts ==> exists i :: 0 <= i < |p.parts| && p.parts[i] == q;
    }
  }

  lemma {:induction false} FirstParse(parts: seq<Part>, n: nat)
    requires n <= |parts|
    ensures FoldFirst(parts, n).Ok? <==> forall i :: 0 <= i < n ==> Sound(parts[i])
    decreases parts, 0, n
  {
    if n > 0 {
      FirstParse(parts, n - 1);
      ParsesIffSound(parts[n - 1]);
    }
  }

  // ----- Attachments are the flattening of the leaves

  /** The leaves in document order, whatever the nesting. */
  function Leaves(p: Part): (ls: seq<Part>)
    ensures forall l :: l in ls ==> l.Leaf?
    decreases p, 1, 0
  {
    if p.Leaf? then [p] else LeavesFirst(p.parts, |p.parts|)
  }

  function LeavesFirst(parts: seq<Part>, n: nat): (ls: seq<Part>)
    requires n <= |parts|
    ensures forall l :: l in ls ==> l.Leaf?
    decreases parts, 0, n
  {
    if n == 0 then [] else LeavesFirst(parts, n - 1) + Leaves(parts[n - 1])
  }

  /** What each part contributes, in order. */
  function Collect<T>(parts: seq<Part>, f: Part -> seq<T>): seq<T> {
    if parts == [] then [] else Collect(parts[..|parts| - 1], f) + f(parts[|parts| - 1])
  }

  lemma {:induction false} CollectConcat<T>(a: seq<Part>, b: seq<Part>, f: Part -> seq<T>)
    ensures Collect(a + b, f) == Collect(a, f) + Collect(b, f)
    decreases |b|
  {
    if b == [] {
      assert a + b == a;
    } else {
      assert (a + b)[..|a + b| - 1] == a + b[..|b| - 1];
      CollectConcat(a, b[..|b| - 1], f);
    }
  }

  lemma CollectOne<T>(p: Part, f: Part -> seq<T>)
    ensures Collect([p], f) == f(p)
  {
    assert [p][..0] == [];
  }

  /** A leaf with a filename, or said to be an attachment in any letter case. */
  predicate IsFile(p: Part) {
    p.Leaf? && (p.filename != "" || ToLower(p.disposition) == "attachment")
  }

  /** A file with its bytes as they are; a missing name is attachment.bin, a missing disposition is attachment. */
  function OwnAttachments(p: Part): seq<Attachment> {
    if !IsFile(p) then []
    else
      var name := if p.filename != "" then p.filename else "attachment.bin";
      var disposition := if p.disposition != "" then p.disposition else "attachment";
      [Attachment(p.body, name, disposition, p.contentId)]
  }

  function AttachmentsOf(leaves: seq<Part>): seq<Attachment> {
    Collect(leaves, OwnAttachments)
  }

  lemma {:induction false} AttachmentsFlatten(p: Part)
    requires Fold(p).Ok?
    ensures Fold(p).value.attachments == AttachmentsOf(Leaves(p))
    decreases p, 1, 0
  {
    if p.Multi? {
      FirstAttachments(p.parts, |p.parts|);
    } else {
      CollectOne(p, OwnAttachments);
    }
  }

  lemma {:induction false} FirstAttachments(parts: seq<Part>, n: nat)
    requires n <= |parts| && FoldFirst(parts, n).Ok?
    ensures FoldFirst(parts, n).value.attachments == AttachmentsOf(LeavesFirst(parts, n))
    decreases parts, 0, n
  {
    if n > 0 {
      FirstAttachments(parts, n - 1);
      AttachmentsFlatten(parts[n - 1]);
      CollectConcat(LeavesFirst(parts, n - 1), Leaves(parts[n - 1]), OwnAttachments);
    }
  }

  // ----- Text and HTML keep every inline leaf

  function Pick(c: Content, html: bool): string {
    if html then c.html else c.text
  }

  /** The trimmed body of a leaf of that media type that is no file, unless it is blank. */
  function OwnInline(html: bool): Part -> seq<string> {
    (p: Part) =>
      if p.Leaf? && !IsFile(p) && p.mediaType == (if html then "text/html" else "text/plain") && TrimSpace(p.body) != ""
      then [TrimSpace(p.body)] else []
  }

  /** The nonblank inline bodies of one kind, in document order. */
  function InlineOf(leaves: seq<Part>, html: bool): seq<string> {
    Collect(leaves, OwnInline(html))
  }

  ghost predicate Occurs(needle: string, hay: string) {
    exists before: string, after: string :: hay == before + needle + after
  }

  /** Bodies joined by newlines. */
  function Join(ts: seq<string>): string {
    if ts == [] then "" else if |ts| == 1 then ts[0] else Join(ts[..|ts| - 1]) + "\n" + ts[|ts| - 1]
  }

  /** a is b with some elements left out. */
  predicate Subsequence(a: seq<string>, b: seq<string>) {
    if a == [] then true
    else if b == [] then false
    else
      var front := b[..|b| - 1];
      (a[|a| - 1] == b[|b| - 1] && Subsequence(a[..|a| - 1], front)) || Subsequence(a, front)
  }

  function Length(ts: seq<string>): nat {
    if ts == [] then 0 else Length(ts[..|ts| - 1]) + |ts[|ts| - 1]|
  }

  function Separators(ts: seq<string>): nat {
    if ts == [] then 0 else |ts| - 1
  }

  /** What a folded text owes to the bodies it was folded from; kept lists the bodies it spells out. */
  ghost predicate Faithful(text: string, bodies: seq<string>, kept: seq<string>) {
    && text == Join(kept) && Subsequence(kept, bodies)
    && (text == "" <==> bodies == [])
    && (kept == [] <==> bodies == [])
    && (forall t :: t in bodies ==> Occurs(t, text))
    && |text| <= Length(bodies) + Separators(bodies)
  }

  lemma {:induction false} JoinConcat(a: seq<string>, b: seq<string>)
    requires a != [] && b != []
    ensures Join(a + b) == Join(a) + "\n" + Join(b)
    decreases |b|
  {
    assert (a + b)[..|a + b| - 1] == a + b[..|b| - 1];
    if |b| == 1 {
      assert a + b[..0] == a;
    } else {
      JoinConcat(a, b[..|b| - 1]);
      assert Join(a) + "\n" + Join(b) == (Join(a) + "\n" + Join(b[..|b| - 1])) + "\n" + b[|b| - 1];
    }
  }

  lemma {:induction false} LengthConcat(a: seq<string>, b: seq<string>)
    ensures Length(a + b) == Length(a) + Length(b)
    decreases |b|
  {
    if b == [] {
      assert a + b == a;
    } else {
      assert (a + b)[..|a + b| - 1] == a + b[..|b| - 1];
      LengthConcat(a, b[..|b| - 1]);
    }
  }

  lemma {:induction false} SubsequenceExtend(a: seq<string>, b: seq<string>, c: seq<string>, d: seq<string>)
    requires Subsequence(a, b) && Subsequence(c, d)
    ensures Subsequence(a + c, b + d)
    decreases |d|
  {
    if d == [] {
      assert b + d == b && a + c == a;
    } else {
      var front := d[..|d| - 1];
      assert (b + d)[..|b + d| - 1] == b + front;
      if c != [] && c[|c| - 1] == d[|d| - 1] && Subsequence(c[..|c| - 1], front) {
        SubsequenceExtend(a, b, c[..|c| - 1], front);
        assert (a + c)[..|a + c| - 1] == a + c[..|c| - 1];
      } else {
        SubsequenceExtend(a, b, c, front);
      }
    }
  }

  lemma OccursAround(t: string, mid: string, before: string, after: string)
    requires Occurs(t, mid)
    ensures Occurs(t, before + mid + after)
  {
    var b, a :| mid == b + t + a;
    assert before + mid + after == (before + b) + t + (a + after);
  }

  /** Merging, with its duplicate suppression, loses none of the bodies. */
  lemma MergeFaithful(dst: string, a: seq<string>, ka: seq<string>, src: string, b: seq<string>, kb: seq<string>)
    returns (kept: seq<string>)
    requires Faithful(dst, a, ka) && Faithful(src, b, kb)
    ensures Faithful(MergeText(dst, src), a + b, kept)
  {
    LengthConcat(a, b);
    if dst == "" {
      kept := kb;
      assert a + b == b;
    } else if src == "" {
      kept := ka;
      assert a + b == a;
    } else if src == dst {
      kept := ka;
      SubsequenceExtend(ka, a, [], b);
      assert ka + [] == ka;
    } else {
      kept := ka + kb;
      JoinConcat(ka, kb);
      SubsequenceExtend(ka, a, kb, b);
      var text := dst + "\n" + src;
      forall t | t in a + b ensures Occurs(t, text) {
        if t in a {
          OccursAround(t, dst, "", "\n" + src);
          assert "" + dst + ("\n" + src) == text;
        } else {
          OccursAround(t, src, dst + "\n", "");
          assert (dst + "\n") + src + "" == text;
        }
      }
    }
  }

  /**
   Every nonblank inline body occurs in the folded text, the text is some of those bodies in document order
   joined by newlines, and it is no longer than all of them with one separator between each two.
   */
  lemma {:induction false} TextPreserved(p: Part, html: bool) returns (kept: seq<string>)
    requires Fold(p).Ok?
    ensures Faithful(Pick(Fold(p).value, html), InlineOf(Leaves(p), html), kept)
    decreases p, 1, 0
  {
    if p.Multi? {
      kept := FirstText(p.parts, |p.parts|, html);
    } else {
      kept := LeafText(p, html);
    }
  }

  lemma LeafText(leaf: Part, html: bool) returns (kept: seq<string>)
    requires leaf.Leaf?
    ensures Faithful(Pick(LeafContent(leaf), html), InlineOf([leaf], html), kept)
  {
    var own := Pick(LeafContent(leaf), html);
    CollectOne(leaf, OwnInline(html));
    if own == "" {
      kept := [];
    } else {
      kept := [own];
      OneBody(own);
    }
  }

  lemma OneBody(own: string)
    requires own != ""
    ensures Faithful(own, [own], [own])
  {
    assert own == "" + own + "";
    assert [own][..0] == [];
  }

  lemma {:induction false} FirstText(parts: seq<Part>, n: nat, html: bool) returns (kept: seq<string>)
    requires n <= |parts| && FoldFirst(parts, n).Ok?
    ensures Faithful(Pick(FoldFirst(parts, n).value, html), InlineOf(LeavesFirst(parts, n), html), kept)
    decreases parts, 0, n
  {
    if n == 0 {
      kept := [];
    } else {
      var ka := FirstText(parts, n - 1, html);
      var kb := TextPreserved(parts[n - 1], html);
      var a, b := LeavesFirst(parts, n - 1), Leaves(parts[n - 1]);
      kept := MergeFaithful(Pick(FoldFirst(parts, n - 1).value, html), InlineOf(a, html), ka,
                            Pick(Fold(parts[n - 1]).value, html), InlineOf(b, html), kb);
      CollectConcat(a, b, OwnInline(html));
    }
  }

  // ----- The content of a message, part by part

  /** What a single part contributes. */
  lemma LeafFolds(leaf: Part)
    requires leaf.Leaf?
    ensures !leaf.decodes ==> Fold(leaf) == Err("decode transfer-encoding")
    ensures leaf.decodes ==>
              Fold(leaf) == Ok(Content(
                                 Concat(OwnInline(false)(leaf)), Concat(OwnInline(true)(leaf)), OwnAttachments(leaf)))
  {}

  /** The only element of a list, or nothing. */
  function Concat(ts: seq<string>): string {
    if ts == [] then "" else ts[0]
  }

  /** A multipart without parts is empty; each further part adds its text on a new line, unless it is there already. */
  lemma MultipartGrows(parts: seq<Part>, p: Part)
    ensures Fold(Multi(true, true, [], true)) == Ok(Content("", "", []))
    ensures var before, own := Fold(Multi(true, true, parts, true)), Fold(p);
            var whole := Fold(Multi(true, true, parts + [p], true));
            if before.Err? then whole == before
            else if own.Err? then whole == own
            else whole.Ok? && Adds(before.value.text, own.value.text, whole.value.text)
                 && Adds(before.value.html, own.value.html, whole.value.html)
                 && whole.value.attachments == before.value.attachments + own.value.attachments
  {
    FoldMore(parts, p);
  }

  /** One text after another, on lines of their own; an empty one or a repetition adds nothing. */
  predicate Adds(before: string, own: string, whole: string) {
    && (before == "" ==> whole == own)
    && (before != "" && own in ["", before] ==> whole == before)
    && (before != "" && own !in ["", before] ==> whole == before + "\n" + own)
  }

  /** The error of a message that does not parse is its first fault's: the node's own, then its parts' in order. */
  lemma FirstFault(p: Part, k: nat)
    requires p.Multi?
    ensures !p.decodes ==> Fold(p) == Err("decode transfer-encoding")
    ensures p.decodes && !p.hasBoundary ==> Fold(p) == Err("multipart part missing boundary")
    ensures p.decodes && p.hasBoundary && k < |p.parts|
            && !Sound(p.parts[k]) && (forall i :: 0 <= i < k ==> Sound(p.parts[i]))
            ==> Fold(p) == Fold(p.parts[k])
    ensures p.decodes && p.hasBoundary && (forall q :: q in p.parts ==> Sound(q)) && !p.endsCleanly
            ==> Fold(p) == Err("next part")
  {
    FirstParse(p.parts, |p.parts|);
    if k < |p.parts| && !Sound(p.parts[k]) && (forall i :: 0 <= i < k ==> Sound(p.parts[i])) {
      FirstParse(p.parts, k);
      ParsesIffSound(p.parts[k]);
      FirstError(p.parts, k + 1, |p.parts|);
    }
  }

  // ----- What is lost

  /** A readable part that is no attachment and is blank or of another type than plain or HTML text. */
  predicate Lost(p: Part) {
    && p.Leaf? && p.decodes && !IsFile(p)
    && (p.mediaType !in ["text/plain", "text/html"] || TrimSpace(p.body) == "")
  }

  /** The tree without its lost leaves, at any depth. */
  function Prune(p: Part): Part
    decreases p, 1, 0
  {
    if p.Leaf? then p else Multi(p.decodes, p.hasBoundary, PruneFirst(p.parts, |p.parts|), p.endsCleanly)
  }

  function PruneFirst(parts: seq<Part>, n: nat): seq<Part>
    requires n <= |parts|
    decreases parts, 0, n
  {
    if n == 0 then []
    else PruneFirst(parts, n - 1) + (if Lost(parts[n - 1]) then [] else [Prune(parts[n - 1])])
  }

  lemma AppendNothing(dst: Content)
    ensures AppendParsed(dst, Nothing) == dst && AppendParsed(Nothing, dst) == dst
  {}

  /** Folding the first parts does not depend on what follows them. */
  lemma {:induction false} FoldPrefix(a: seq<Part>, b: seq<Part>, n: nat)
    requires n <= |a|
    ensures FoldFirst(a + b, n) == FoldFirst(a, n)
    decreases n
  {
    if n > 0 {
      FoldPrefix(a, b, n - 1);
    }
  }

  function FoldAll(parts: seq<Part>): Result<Content> {
    FoldFirst(parts, |parts|)
  }

  /** One more part at the end. */
  lemma FoldMore(parts: seq<Part>, p: Part)
    ensures FoldAll(parts + [p]) == (
              if FoldAll(parts).Err? then FoldAll(parts)
              else if Fold(p).Err? then Fold(p)
              else Ok(AppendParsed(FoldAll(parts).value, Fold(p).value)))
  {
    FoldPrefix(parts, [p], |parts|);
  }

  /** Deleting every lost leaf, however deep, changes nothing: neither the content nor the error. */
  lemma {:induction false} PruneKeepsFold(p: Part)
    ensures Fold(Prune(p)) == Fold(p)
    decreases p, 1, 0
  {
    if p.Multi? {
      PruneFirstKeepsFold(p.parts, |p.parts|);
    }
  }

  lemma {:induction false} PruneFirstKeepsFold(parts: seq<Part>, n: nat)
    requires n <= |parts|
    ensures FoldAll(PruneFirst(parts, n)) == FoldFirst(parts, n)
    decreases parts, 0, n
  {
    if n > 0 {
      var front, last := PruneFirst(parts, n - 1), parts[n - 1];
      PruneFirstKeepsFold(parts, n - 1);
      if Lost(last) {
        assert front + [] == front && Fold(last) == Ok(Nothing);
        if FoldAll(front).Ok? {
          AppendNothing(FoldAll(front).value);
        }
      } else {
        FoldMore(front, Prune(last));
        PruneKeepsFold(last);
      }
    }
  }

  /** A message of these parts folds the same with and without the part between them. */
  predicate Immaterial(p: Part, before: seq<Part>, after: seq<Part>) {
    FoldAll(before + [p] + after) == FoldAll(before + after)
  }

  lemma {:induction false} LostImmaterial(p: Part, before: seq<Part>, after: seq<Part>)
    requires Lost(p)
    ensures Immaterial(p, before, after)
    decreases |after|
  {
    if after == [] {
      assert before + [p] + after == before + [p] && before + after == before;
      FoldMore(before, p);
      if FoldAll(before).Ok? {
        AppendNothing(FoldAll(before).value);
      }
    } else {
      var front, last := after[..|after| - 1], after[|after| - 1];
      LostImmaterial(p, before, front);
      assert before + [p] + after == (before + [p] + front) + [last] && before + after == (before + front) + [last];
      FoldMore(before + [p] + front, last);
      FoldMore(before + front, last);
    }
  }

  /** And only the lost leaves are like that: a leaf can be deleted from every message without effect iff it is lost. */
  lemma LeafLostIff(leaf: Part)
    requires leaf.Leaf?
    ensures Lost(leaf) <==> forall before: seq<Part>, after: seq<Part> :: Immaterial(leaf, before, after)
  {
    if Lost(leaf) {
      forall before: seq<Part>, after: seq<Part> ensures Immaterial(leaf, before, after) {
        LostImmaterial(leaf, before, after);
      }
    } else {
      FoldMore([], leaf);
      assert [] + [leaf] + [] == [leaf] && [] + [leaf] == [leaf];
      if leaf.decodes {
        AppendNothing(LeafContent(leaf));
      }
      assert !Immaterial(leaf, [], []);
    }
  }

  // ----- One message per recipient

  datatype Address = Address(name: string, email: string)

  datatype Mail = Mail(
    from: Address,
    to: Address,
    subject: string,
    text: string,
    html: string,
    attachments: seq<Attachment>)

  /** A raw message after header parsing: no header when unreadable, no From when missing or unparsable. */
  datatype Raw = Raw(readable: bool, headerFrom: Option<Address>, subject: string, body: Part)

  /** The header From is used, name and all, only if it names the envelope sender; otherwise the envelope sender is. */
  function SelectFrom(envelope: Address, header: Option<Address>): (a: Address)
    ensures ToLower(a.email) == ToLower(envelope.email)
    ensures a != envelope ==> header == Some(a)
    ensures header.Some? && ToLower(header.value.email) == ToLower(envelope.email) ==> a == header.value
  {
    if header.Some? && ToLower(header.value.email) == ToLower(envelope.email) then header.value else envelope
  }

  /** The message for one recipient. */
  function MailFor(from: Address, raw: Raw, content: Content, to: Address): Mail {
    Mail(from, to, raw.subject, content.text, content.html, content.attachments)
  }

  /** From whom, to whom, and with the subject, text, HTML and attachments of the one message. */
  predicate MailIs(m: Mail, envelope: Address, header: Option<Address>, to: Address, subject: string,
                   content: Content) {
    && m.to == to && m.subject == subject
    && m.text == content.text && m.html == content.html && m.attachments == content.attachments
    && m.from == (if header.Some? && ToLower(header.value.email) == ToLower(envelope.email) then header.value
                   else envelope)
  }

  predicate Transformable(parse: string -> Option<Address>, envelopeFrom: string, recipients: seq<string>, raw: Raw) {
    && recipients != [] && raw.readable && parse(envelopeFrom).Some? && Sound(raw.body)
    && forall i :: 0 <= i < |recipients| ==> parse(recipients[i]).Some?
  }

  /** All or nothing: one message per recipient, in order, all with the same content. */
  method Transform(parse: string -> Option<Address>, envelopeFrom: string, recipients: seq<string>, raw: Raw)
    returns (r: Result<seq<Mail>>)
    ensures r.Ok? <==> Transformable(parse, envelopeFrom, recipients, raw)
    ensures r.Ok? ==> |r.value| == |recipients| && Fold(raw.body).Ok?
    ensures r.Ok? ==> forall i :: 0 <= i < |recipients| ==>
              parse(recipients[i]).Some? && parse(envelopeFrom).Some?
              && r.value[i] == MailFor(SelectFrom(parse(envelopeFrom).value, raw.headerFrom), raw, Fold(raw.body).value,
                                       parse(recipients[i]).value)
    ensures r.Ok? ==> forall i :: 0 <= i < |recipients| ==>
              MailIs(r.value[i], parse(envelopeFrom).value, raw.headerFrom, parse(recipients[i]).value,
                     raw.subject, Fold(raw.body).value)
  {
    if |recipients| == 0 {
      return Err("missing recipients");
    }
    if !raw.readable {
      return Err("parse rfc822 message");
    }
    var env := parse(envelopeFrom);
    if env.None? {
      return Err("invalid envelope sender");
    }
    var from := SelectFrom(env.value, raw.headerFrom);
    var content := ParseContent(raw.body);
    ParsesIffSound(raw.body);
    if content.Err? {
      return Err("parse mime content");
    }
    var out: seq<Mail> := [];
    for i := 0 to |recipients|
      invariant |out| == i
      invariant forall k :: 0 <= k < i ==>
                  parse(recipients[k]).Some? && out[k] == MailFor(from, raw, content.value, parse(recipients[k]).value)
    {
      var addr := parse(recipients[i]);
      if addr.None? {
        return Err("invalid rcpt address");
      }
      out := out + [MailFor(from, raw, content.value, addr.value)];
    }
    r := Ok(out);
  }
}
