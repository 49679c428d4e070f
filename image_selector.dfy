/**
 * The interactive image cleaner's selection model: a flat list of images grouped into
 * a project, registry, image tree, with a cursor over the visible nodes, selection,
 * expansion, deletion and removal of deleted images.
 *
 * The tree is a value: three levels of nodes, each level a sequence. A visible node is
 * addressed by its position (project index, registry index, image index). The tree's
 * node pointers in the Go program, and the parent links used only for indentation, are
 * not needed to state what the selector does.
 */
module ImageSelector {
  import opened Wrappers
  import opened Platform

  /** A registry image. */
  datatype ImageInfo = ImageInfo(name: string, path: string, location: string)

  /** An image with the project and registry it belongs to, and its selection mark. */
  datatype ImageItem = ImageItem(
    info: ImageInfo, projectId: int, projectName: string, registryId: int, registryPath: string,
    selected: bool)

  /** The identity of an image in selection lists: project, registry and image name. */
  datatype Key = Key(projectId: int, registryId: int, name: string)

  function KeyOf(x: ImageItem): Key {
    Key(x.projectId, x.registryId, x.info.name)
  }

  /** The keys of a list of images. */
  function KeysOf(items: seq<ImageItem>): (keys: set<Key>)
    ensures forall x :: x in items ==> KeyOf(x) in keys
    ensures forall k :: k in keys ==> exists x :: x in items && KeyOf(x) == k
  {
    set x | x in items :: KeyOf(x)
  }

  /** An image node: its copy of the image, and its own selection mark. */
  datatype ImageNode = ImageNode(item: ImageItem, selected: bool)

  /** A registry node: the images of one registry of one project. */
  datatype RegistryNode = RegistryNode(
    projectId: int, registryId: int, registryPath: string, expanded: bool, images: seq<ImageNode>)

  /** A project node: the registries of one project. */
  datatype ProjectNode = ProjectNode(
    projectId: int, projectName: string, expanded: bool, registries: seq<RegistryNode>)

  // ---------------------------------------------------------------------------------
  // buildTree

  /** The first project node with this id, or |tree| when there is none. */
  function ProjectIndex(tree: seq<ProjectNode>, id: int): (k: nat)
    ensures k <= |tree|
    ensures k < |tree| ==> tree[k].projectId == id
    ensures forall j :: 0 <= j < k ==> tree[j].projectId != id
  {
    if |tree| == 0 then 0
    else if tree[0].projectId == id then 0
    else 1 + ProjectIndex(tree[1..], id)
  }

  /** The first registry node with this id, or |regs| when there is none. */
  function RegistryIndex(regs: seq<RegistryNode>, id: int): (k: nat)
    ensures k <= |regs|
    ensures k < |regs| ==> regs[k].registryId == id
    ensures forall j :: 0 <= j < k ==> regs[j].registryId != id
  {
    if |regs| == 0 then 0
    else if regs[0].registryId == id then 0
    else 1 + RegistryIndex(regs[1..], id)
  }

  /** The registries of a project with `img` added to its registry, created as needed. */
  function AddToRegistries(regs: seq<RegistryNode>, img: ImageItem): seq<RegistryNode> {
    var j := RegistryIndex(regs, img.registryId);
    if j == |regs| then regs + [RegistryNode(img.projectId, img.registryId, img.registryPath, true, [ImageNode(img, false)])]
    else regs[j := regs[j].(images := regs[j].images + [ImageNode(img, false)])]
  }

  /** One step of buildTree: get or create the project node and the registry node, then add the image. */
  function AddImage(tree: seq<ProjectNode>, img: ImageItem): seq<ProjectNode> {
    var k := ProjectIndex(tree, img.projectId);
    if k == |tree| then
      tree + [ProjectNode(img.projectId, img.projectName, true, AddToRegistries([], img))]
    else tree[k := tree[k].(registries := AddToRegistries(tree[k].registries, img))]
  }

  /** buildTree over `images`, in order. */
  function Tree(images: seq<ImageItem>): seq<ProjectNode> {
    if |images| == 0 then [] else AddImage(Tree(images[..|images| - 1]), images[|images| - 1])
  }

  /** The project ids of the tree's top level, in order. */
  function ProjectIds(tree: seq<ProjectNode>): (ids: seq<int>)
    ensures |ids| == |tree|
    ensures forall k :: 0 <= k < |tree| ==> ids[k] == tree[k].projectId
  {
    if |tree| == 0 then [] else ProjectIds(tree[..|tree| - 1]) + [tree[|tree| - 1].projectId]
  }

  /** The distinct values of `xs`, in order of first appearance. */
  function FirstSeen(xs: seq<int>): seq<int> {
    if |xs| == 0 then []
    else
      var prev := FirstSeen(xs[..|xs| - 1]);
      if xs[|xs| - 1] in prev then prev else prev + [xs[|xs| - 1]]
  }

  /** The project ids of a list of images, in order. */
  function ProjectIdsOf(images: seq<ImageItem>): (ids: seq<int>)
    ensures |ids| == |images|
    ensures forall i :: 0 <= i < |images| ==> ids[i] == images[i].projectId
  {
    if |images| == 0 then [] else ProjectIdsOf(images[..|images| - 1]) + [images[|images| - 1].projectId]
  }

  lemma {:induction false} FirstSeenMembers(xs: seq<int>)
    ensures forall x :: x in FirstSeen(xs) <==> x in xs
  {
    if |xs| > 0 {
      FirstSeenMembers(xs[..|xs| - 1]);
      assert xs == xs[..|xs| - 1] + [xs[|xs| - 1]];
    }
  }

  lemma ProjectIndexFound(tree: seq<ProjectNode>, id: int)
    ensures ProjectIndex(tree, id) < |tree| <==> id in ProjectIds(tree)
  {
    if id in ProjectIds(tree) {
      var k :| 0 <= k < |tree| && ProjectIds(tree)[k] == id;
    }
  }

  /** Adding an image keeps the project ids, or appends the image's when it is new. */
  lemma AddImageProjects(tree: seq<ProjectNode>, img: ImageItem)
    ensures ProjectIds(AddImage(tree, img)) ==
      if img.projectId in ProjectIds(tree) then ProjectIds(tree) else ProjectIds(tree) + [img.projectId]
  {
    ProjectIndexFound(tree, img.projectId);
    var t := AddImage(tree, img);
    if img.projectId in ProjectIds(tree) {
      assert ProjectIds(t) == ProjectIds(tree);
    } else {
      assert ProjectIds(t) == ProjectIds(tree) + [img.projectId];
    }
  }

  /**
   * buildTree creates one project node per distinct project id, in order of first
   * appearance.
   */
  lemma {:induction false} TreeProjects(images: seq<ImageItem>)
    ensures ProjectIds(Tree(images)) == FirstSeen(ProjectIdsOf(images))
  {
    if |images| > 0 {
      var init := images[..|images| - 1];
      TreeProjects(init);
      AddImageProjects(Tree(init), images[|images| - 1]);
      assert ProjectIdsOf(images)[..|images| - 1] == ProjectIdsOf(init);
    }
  }

  /** The images of the registry node (projectId, registryId), or none when there is no such node. */
  function RegistryImages(tree: seq<ProjectNode>, projectId: int, registryId: int): seq<ImageNode> {
    var k := ProjectIndex(tree, projectId);
    if k == |tree| then []
    else
      var regs := tree[k].registries;
      var j := RegistryIndex(regs, registryId);
      if j == |regs| then [] else regs[j].images
  }

  /** The images of `images` that belong to registry `registryId` of project `projectId`, in order, unselected. */
  function Bucket(images: seq<ImageItem>, projectId: int, registryId: int): seq<ImageNode> {
    if |images| == 0 then []
    else
      var x := images[|images| - 1];
      Bucket(images[..|images| - 1], projectId, registryId)
      + (if x.projectId == projectId && x.registryId == registryId then [ImageNode(x, false)] else [])
  }

  lemma RegistryIndexSame(a: seq<RegistryNode>, b: seq<RegistryNode>, id: int)
    requires |a| == |b|
    requires forall j :: 0 <= j < |a| ==> a[j].registryId == b[j].registryId
    ensures RegistryIndex(a, id) == RegistryIndex(b, id)
  {
    var ka := RegistryIndex(a, id);
    var kb := RegistryIndex(b, id);
  }

  lemma ProjectIndexSame(a: seq<ProjectNode>, b: seq<ProjectNode>, id: int)
    requires |a| == |b|
    requires forall k :: 0 <= k < |a| ==> a[k].projectId == b[k].projectId
    ensures ProjectIndex(a, id) == ProjectIndex(b, id)
  {
    var ka := ProjectIndex(a, id);
    var kb := ProjectIndex(b, id);
  }

  lemma RegistryIndexAppend(a: seq<RegistryNode>, r: RegistryNode, id: int)
    ensures RegistryIndex(a, id) < |a| ==> RegistryIndex(a + [r], id) == RegistryIndex(a, id)
    ensures RegistryIndex(a, id) == |a| ==> RegistryIndex(a + [r], id) == if r.registryId == id then |a| else |a| + 1
  {
    assert forall j :: 0 <= j < |a| ==> (a + [r])[j] == a[j];
    assert (a + [r])[|a|] == r;
  }

  lemma ProjectIndexAppend(a: seq<ProjectNode>, p: ProjectNode, id: int)
    ensures ProjectIndex(a, id) < |a| ==> ProjectIndex(a + [p], id) == ProjectIndex(a, id)
    ensures ProjectIndex(a, id) == |a| ==> ProjectIndex(a + [p], id) == if p.projectId == id then |a| else |a| + 1
  {
    assert forall j :: 0 <= j < |a| ==> (a + [p])[j] == a[j];
    assert (a + [p])[|a|] == p;
  }

  /** Adding an image to a project's registries extends exactly its own registry's images. */
  lemma AddToRegistriesBucket(regs: seq<RegistryNode>, img: ImageItem, registryId: int)
    ensures var regs' := AddToRegistries(regs, img);
      var j := RegistryIndex(regs', registryId);
      var old_ := RegistryIndex(regs, registryId);
      (if j == |regs'| then [] else regs'[j].images)
        == (if old_ == |regs| then [] else regs[old_].images)
           + (if img.registryId == registryId then [ImageNode(img, false)] else [])
  {
    var regs' := AddToRegistries(regs, img);
    var j0 := RegistryIndex(regs, img.registryId);
    if j0 == |regs| {
      var r := RegistryNode(img.projectId, img.registryId, img.registryPath, true, [ImageNode(img, false)]);
      RegistryIndexAppend(regs, r, registryId);
    } else {
      RegistryIndexSame(regs, regs', registryId);
    }
  }

  /** Adding an image extends exactly the bucket of its own project and registry. */
  lemma AddImageBucket(tree: seq<ProjectNode>, img: ImageItem, projectId: int, registryId: int)
    ensures RegistryImages(AddImage(tree, img), projectId, registryId)
      == RegistryImages(tree, projectId, registryId)
         + (if img.projectId == projectId && img.registryId == registryId then [ImageNode(img, false)] else [])
  {
    var t := AddImage(tree, img);
    var k0 := ProjectIndex(tree, img.projectId);
    if k0 == |tree| {
      var p := ProjectNode(img.projectId, img.projectName, true, AddToRegistries([], img));
      ProjectIndexAppend(tree, p, projectId);
      AddToRegistriesBucket([], img, registryId);
    } else {
      ProjectIndexSame(tree, t, projectId);
      if img.projectId == projectId {
        AddToRegistriesBucket(tree[k0].registries, img, registryId);
      }
    }
  }

  /**
   * buildTree puts every image, and only it, under the registry node of its project and
   * registry, in input order, unselected.
   */
  lemma {:induction false} TreeBuckets(images: seq<ImageItem>, projectId: int, registryId: int)
    ensures RegistryImages(Tree(images), projectId, registryId) == Bucket(images, projectId, registryId)
  {
    if |images| > 0 {
      var init := images[..|images| - 1];
      TreeBuckets(init, projectId, registryId);
      AddImageBucket(Tree(init), images[|images| - 1], projectId, registryId);
    }
  }

  /** Every project and registry node is expanded, and every registry node carries its project's id. */
  predicate AllExpanded(tree: seq<ProjectNode>) {
    forall k, j :: 0 <= k < |tree| && 0 <= j < |tree[k].registries| ==>
      tree[k].expanded && tree[k].registries[j].expanded
      && tree[k].registries[j].projectId == tree[k].projectId
  }

  /** Every registry node of `regs` is expanded and carries the project id `projectId`. */
  predicate RegistriesExpanded(regs: seq<RegistryNode>, projectId: int) {
    forall j :: 0 <= j < |regs| ==> regs[j].expanded && regs[j].projectId == projectId
  }

  lemma AddToRegistriesExpanded(regs: seq<RegistryNode>, img: ImageItem)
    requires RegistriesExpanded(regs, img.projectId)
    ensures RegistriesExpanded(AddToRegistries(regs, img), img.projectId)
  {
    var j0 := RegistryIndex(regs, img.registryId);
    if j0 < |regs| {
      assert regs[j0].projectId == img.projectId;
    }
  }

  lemma AddImageExpanded(tree: seq<ProjectNode>, img: ImageItem)
    requires AllExpanded(tree) && forall k :: 0 <= k < |tree| ==> tree[k].expanded
    ensures AllExpanded(AddImage(tree, img))
    ensures forall k :: 0 <= k < |AddImage(tree, img)| ==> AddImage(tree, img)[k].expanded
  {
    var k0 := ProjectIndex(tree, img.projectId);
    if k0 < |tree| {
      var regs := tree[k0].registries;
      assert RegistriesExpanded(regs, img.projectId);
      AddToRegistriesExpanded(regs, img);
    } else {
      AddToRegistriesExpanded([], img);
    }
  }

  lemma {:induction false} TreeExpanded(images: seq<ImageItem>)
    ensures AllExpanded(Tree(images))
    ensures forall k :: 0 <= k < |Tree(images)| ==> Tree(images)[k].expanded
  {
    if |images| > 0 {
      TreeExpanded(images[..|images| - 1]);
      AddImageExpanded(Tree(images[..|images| - 1]), images[|images| - 1]);
    }
  }

  /** The number of image nodes in a project's registries. */
  function RegistriesSize(regs: seq<RegistryNode>): nat {
    if |regs| == 0 then 0 else RegistriesSize(regs[..|regs| - 1]) + |regs[|regs| - 1].images|
  }

  /** The number of image nodes in the tree. */
  function TreeSize(tree: seq<ProjectNode>): nat {
    if |tree| == 0 then 0 else TreeSize(tree[..|tree| - 1]) + RegistriesSize(tree[|tree| - 1].registries)
  }

  lemma {:induction false} RegistriesSizeUpdate(regs: seq<RegistryNode>, j: nat, r: RegistryNode)
    requires j < |regs|
    ensures RegistriesSize(regs[j := r]) + |regs[j].images| == RegistriesSize(regs) + |r.images|
  {
    if j < |regs| - 1 {
      assert regs[j := r][..|regs| - 1] == regs[..|regs| - 1][j := r];
      RegistriesSizeUpdate(regs[..|regs| - 1], j, r);
    } else {
      assert regs[j := r][..|regs| - 1] == regs[..|regs| - 1];
    }
  }

  lemma {:induction false} TreeSizeUpdate(tree: seq<ProjectNode>, k: nat, p: ProjectNode)
    requires k < |tree|
    ensures TreeSize(tree[k := p]) + RegistriesSize(tree[k].registries) == TreeSize(tree) + RegistriesSize(p.registries)
  {
    if k < |tree| - 1 {
      assert tree[k := p][..|tree| - 1] == tree[..|tree| - 1][k := p];
      TreeSizeUpdate(tree[..|tree| - 1], k, p);
    } else {
      assert tree[k := p][..|tree| - 1] == tree[..|tree| - 1];
    }
  }

  lemma AddToRegistriesSize(regs: seq<RegistryNode>, img: ImageItem)
    ensures RegistriesSize(AddToRegistries(regs, img)) == RegistriesSize(regs) + 1
  {
    var j := RegistryIndex(regs, img.registryId);
    if j == |regs| {
      var r := RegistryNode(img.projectId, img.registryId, img.registryPath, true, [ImageNode(img, false)]);
      assert (regs + [r])[..|regs|] == regs;
    } else {
      RegistriesSizeUpdate(regs, j, regs[j].(images := regs[j].images + [ImageNode(img, false)]));
    }
  }

  /** buildTree creates exactly one image node per input image. */
  lemma {:induction false} TreeSizeIsLength(images: seq<ImageItem>)
    ensures TreeSize(Tree(images)) == |images|
  {
    if |images| > 0 {
      var init := images[..|images| - 1];
      TreeSizeIsLength(init);
      var img := images[|images| - 1];
      var tree := Tree(init);
      var k := ProjectIndex(tree, img.projectId);
      if k == |tree| {
        var p := ProjectNode(img.projectId, img.projectName, true, AddToRegistries([], img));
        assert (tree + [p])[..|tree|] == tree;
        AddToRegistriesSize([], img);
      } else {
        AddToRegistriesSize(tree[k].registries, img);
        TreeSizeUpdate(tree, k, tree[k].(registries := AddToRegistries(tree[k].registries, img)));
      }
    }
  }

  // ---------------------------------------------------------------------------------
  // getFlatNodes

  /** The position of a node: a project, a registry of a project, or an image of a registry. */
  datatype Pos = AtProject(p: nat) | AtRegistry(p: nat, r: nat) | AtImage(p: nat, r: nat, i: nat)

  /** The position names a node of the tree. */
  predicate Exists(tree: seq<ProjectNode>, pos: Pos) {
    match pos
    case AtProject(p) => p < |tree|
    case AtRegistry(p, r) => p < |tree| && r < |tree[p].registries|
    case AtImage(p, r, i) => p < |tree| && r < |tree[p].registries| && i < |tree[p].registries[r].images|
  }

  /** The node at the position exists and every node above it is expanded. */
  predicate Shown(tree: seq<ProjectNode>, pos: Pos) {
    match pos
    case AtProject(p) => p < |tree|
    case AtRegistry(p, r) => p < |tree| && tree[p].expanded && r < |tree[p].registries|
    case AtImage(p, r, i) =>
      p < |tree| && tree[p].expanded && r < |tree[p].registries|
      && tree[p].registries[r].expanded && i < |tree[p].registries[r].images|
  }

  function FlatImages(p: nat, r: nat, n: nat): seq<Pos> {
    if n == 0 then [] else FlatImages(p, r, n - 1) + [AtImage(p, r, n - 1)]
  }

  /** The visible nodes below the first `m` registries of project `p`, in pre-order. */
  function FlatRegistries(tree: seq<ProjectNode>, p: nat, m: nat): seq<Pos>
    requires p < |tree| && m <= |tree[p].registries|
  {
    if m == 0 then []
    else
      var reg := tree[p].registries[m - 1];
      FlatRegistries(tree, p, m - 1) + [AtRegistry(p, m - 1)]
      + (if reg.expanded then FlatImages(p, m - 1, |reg.images|) else [])
  }

  /** The visible nodes of the first `n` projects, in pre-order. */
  function FlatProjects(tree: seq<ProjectNode>, n: nat): seq<Pos>
    requires n <= |tree|
  {
    if n == 0 then []
    else
      FlatProjects(tree, n - 1) + [AtProject(n - 1)]
      + (if tree[n - 1].expanded then FlatRegistries(tree, n - 1, |tree[n - 1].registries|) else [])
  }

  /** getFlatNodes: the visible nodes, in pre-order, without the descendants of collapsed nodes. */
  function FlatNodes(tree: seq<ProjectNode>): seq<Pos> {
    FlatProjects(tree, |tree|)
  }

  lemma {:induction false} FlatImagesMembers(p: nat, r: nat, n: nat, pos: Pos)
    ensures pos in FlatImages(p, r, n) <==> pos.AtImage? && pos.p == p && pos.r == r && pos.i < n
  {
    if n > 0 {
      FlatImagesMembers(p, r, n - 1, pos);
    }
  }

  lemma {:induction false} FlatRegistriesMembers(tree: seq<ProjectNode>, p: nat, m: nat, pos: Pos)
    requires p < |tree| && m <= |tree[p].registries|
    ensures pos in FlatRegistries(tree, p, m) <==>
      pos.p == p && !pos.AtProject? && pos.r < m &&
      (pos.AtImage? ==> tree[p].registries[pos.r].expanded && pos.i < |tree[p].registries[pos.r].images|)
  {
    if m > 0 {
      FlatRegistriesMembers(tree, p, m - 1, pos);
      FlatImagesMembers(p, m - 1, |tree[p].registries[m - 1].images|, pos);
    }
  }

  lemma {:induction false} FlatProjectsMembers(tree: seq<ProjectNode>, n: nat, pos: Pos)
    requires n <= |tree|
    ensures pos in FlatProjects(tree, n) <==> Shown(tree, pos) && pos.p < n
  {
    if n > 0 {
      FlatProjectsMembers(tree, n - 1, pos);
      if tree[n - 1].expanded {
        FlatRegistriesMembers(tree, n - 1, |tree[n - 1].registries|, pos);
      }
    }
  }

  /** A node is listed by getFlatNodes exactly when it exists and all its ancestors are expanded. */
  lemma FlatNodesShown(tree: seq<ProjectNode>, pos: Pos)
    ensures pos in FlatNodes(tree) <==> Shown(tree, pos)
  {
    FlatProjectsMembers(tree, |tree|, pos);
  }

  /** The cursor's node, when the cursor is on a visible node. */
  lemma FlatNodeAt(tree: seq<ProjectNode>, c: nat)
    requires c < |FlatNodes(tree)|
    ensures Shown(tree, FlatNodes(tree)[c])
  {
    FlatNodesShown(tree, FlatNodes(tree)[c]);
  }

  /** Two trees with the same nodes and expansion flags, whatever their selection marks. */
  predicate SameShape(a: seq<ProjectNode>, b: seq<ProjectNode>) {
    && |a| == |b|
    && (forall k :: 0 <= k < |a| ==>
          a[k].expanded == b[k].expanded && |a[k].registries| == |b[k].registries|)
    && (forall k, j :: 0 <= k < |a| && 0 <= j < |a[k].registries| && |a[k].registries| == |b[k].registries| ==>
          a[k].registries[j].expanded == b[k].registries[j].expanded
          && |a[k].registries[j].images| == |b[k].registries[j].images|)
  }

  lemma {:induction false} FlatRegistriesShape(a: seq<ProjectNode>, b: seq<ProjectNode>, p: nat, m: nat)
    requires SameShape(a, b) && p < |a| && m <= |a[p].registries|
    ensures FlatRegistries(a, p, m) == FlatRegistries(b, p, m)
  {
    if m > 0 {
      FlatRegistriesShape(a, b, p, m - 1);
    }
  }

  lemma {:induction false} FlatProjectsShape(a: seq<ProjectNode>, b: seq<ProjectNode>, n: nat)
    requires SameShape(a, b) && n <= |a|
    ensures FlatProjects(a, n) == FlatProjects(b, n)
  {
    if n > 0 {
      FlatProjectsShape(a, b, n - 1);
      FlatRegistriesShape(a, b, n - 1, |a[n - 1].registries|);
    }
  }

  /** The visible nodes depend on the tree's shape and expansion only, not on selection. */
  lemma FlatNodesShape(a: seq<ProjectNode>, b: seq<ProjectNode>)
    requires SameShape(a, b)
    ensures FlatNodes(a) == FlatNodes(b)
  {
    FlatProjectsShape(a, b, |a|);
  }

  // ---------------------------------------------------------------------------------
  // moveCursor

  /** `x` brought into [0, hi]. */
  function Clamp(x: int, hi: nat): (r: nat)
    ensures r <= hi
    ensures 0 <= x <= hi ==> r == x
    ensures x < 0 ==> r == 0
    ensures x > hi ==> r == hi
  {
    if x < 0 then 0 else if x > hi then hi else x
  }

  // ---------------------------------------------------------------------------------
  // toggleSelection and toggleNodeChildren

  /** An image node marked `sel`, with the mark mirrored into its image. */
  function Mark(n: ImageNode, sel: bool): ImageNode {
    ImageNode(n.item.(selected := sel), sel)
  }

  function MarkAll(images: seq<ImageNode>, sel: bool): seq<ImageNode> {
    seq(|images|, i requires 0 <= i < |images| => Mark(images[i], sel))
  }

  /** The image at (p, r, i) marked `sel`. */
  function MarkImage(tree: seq<ProjectNode>, p: nat, r: nat, i: nat, sel: bool): seq<ProjectNode>
    requires Exists(tree, AtImage(p, r, i))
  {
    var regs := tree[p].registries;
    var imgs := regs[r].images;
    tree[p := tree[p].(registries := regs[r := regs[r].(images := imgs[i := Mark(imgs[i], sel)])])]
  }

  /** Every image of registry r of project p marked selected. */
  function SelectRegistry(tree: seq<ProjectNode>, p: nat, r: nat): seq<ProjectNode>
    requires Exists(tree, AtRegistry(p, r))
  {
    var regs := tree[p].registries;
    tree[p := tree[p].(registries := regs[r := regs[r].(images := MarkAll(regs[r].images, true))])]
  }

  /** Every image of project p marked selected. */
  function SelectProject(tree: seq<ProjectNode>, p: nat): seq<ProjectNode>
    requires p < |tree|
  {
    var regs := tree[p].registries;
    tree[p := tree[p].(registries :=
      seq(|regs|, j requires 0 <= j < |regs| => regs[j].(images := MarkAll(regs[j].images, true))))]
  }

  /**
   * toggleSelection with the cursor at `cursor`: an image flips its mark; a project or a
   * registry hands `!node.Selected` to all its images, and since that flag of a project
   * or registry node is never set, this always selects them all.
   */
  function Toggled(tree: seq<ProjectNode>, cursor: nat): seq<ProjectNode> {
    var flat := FlatNodes(tree);
    if cursor >= |flat| then tree
    else
      FlatNodeAt(tree, cursor);
      match flat[cursor]
      case AtImage(p, r, i) => MarkImage(tree, p, r, i, !tree[p].registries[r].images[i].selected)
      case AtRegistry(p, r) => SelectRegistry(tree, p, r)
      case AtProject(p) => SelectProject(tree, p)
  }

  /** The image node at an existing position. */
  function ImageAt(tree: seq<ProjectNode>, p: nat, r: nat, i: nat): ImageNode
    requires Exists(tree, AtImage(p, r, i))
  {
    tree[p].registries[r].images[i]
  }

  lemma MarkImageShape(tree: seq<ProjectNode>, p: nat, r: nat, i: nat, sel: bool)
    requires Exists(tree, AtImage(p, r, i))
    ensures SameShape(MarkImage(tree, p, r, i, sel), tree)
  {
  }

  lemma SelectRegistryShape(tree: seq<ProjectNode>, p: nat, r: nat)
    requires Exists(tree, AtRegistry(p, r))
    ensures SameShape(SelectRegistry(tree, p, r), tree)
  {
  }

  lemma SelectProjectShape(tree: seq<ProjectNode>, p: nat)
    requires p < |tree|
    ensures SameShape(SelectProject(tree, p), tree)
  {
  }

  /** Toggling keeps the tree's shape, so the visible nodes stay the same. */
  lemma ToggledShape(tree: seq<ProjectNode>, cursor: nat)
    ensures SameShape(Toggled(tree, cursor), tree)
    ensures FlatNodes(Toggled(tree, cursor)) == FlatNodes(tree)
  {
    if cursor < |FlatNodes(tree)| {
      FlatNodeAt(tree, cursor);
      match FlatNodes(tree)[cursor]
      case AtImage(p, r, i) => MarkImageShape(tree, p, r, i, !tree[p].registries[r].images[i].selected);
      case AtRegistry(p, r) => SelectRegistryShape(tree, p, r);
      case AtProject(p) => SelectProjectShape(tree, p);
    }
    FlatNodesShape(Toggled(tree, cursor), tree);
  }

  /**
   * Toggling an image flips its mark and mirrors it into its image; no other image
   * changes.
   */
  lemma ToggledImage(tree: seq<ProjectNode>, cursor: nat, p: nat, r: nat, i: nat)
    requires cursor < |FlatNodes(tree)| && FlatNodes(tree)[cursor] == AtImage(p, r, i)
    ensures SameShape(Toggled(tree, cursor), tree)
    ensures Exists(tree, AtImage(p, r, i))
    ensures var n := ImageAt(Toggled(tree, cursor), p, r, i);
      n.selected == !ImageAt(tree, p, r, i).selected && n.item == ImageAt(tree, p, r, i).item.(selected := n.selected)
    ensures forall p': nat, r': nat, i': nat :: Exists(tree, AtImage(p', r', i')) && (p', r', i') != (p, r, i) ==>
      ImageAt(Toggled(tree, cursor), p', r', i') == ImageAt(tree, p', r', i')
  {
    FlatNodeAt(tree, cursor);
    ToggledShape(tree, cursor);
  }

  /** Toggling a project selects every image of that project and changes no other image. */
  lemma ToggledProject(tree: seq<ProjectNode>, cursor: nat, p: nat)
    requires cursor < |FlatNodes(tree)| && FlatNodes(tree)[cursor] == AtProject(p)
    ensures SameShape(Toggled(tree, cursor), tree)
    ensures forall r: nat, i: nat :: Exists(tree, AtImage(p, r, i)) ==>
      ImageAt(Toggled(tree, cursor), p, r, i) == Mark(ImageAt(tree, p, r, i), true)
    ensures forall p': nat, r': nat, i': nat :: Exists(tree, AtImage(p', r', i')) && p' != p ==>
      ImageAt(Toggled(tree, cursor), p', r', i') == ImageAt(tree, p', r', i')
  {
    FlatNodeAt(tree, cursor);
    ToggledShape(tree, cursor);
  }

  /** Toggling a registry selects every image of that registry and changes no other image. */
  lemma ToggledRegistry(tree: seq<ProjectNode>, cursor: nat, p: nat, r: nat)
    requires cursor < |FlatNodes(tree)| && FlatNodes(tree)[cursor] == AtRegistry(p, r)
    ensures SameShape(Toggled(tree, cursor), tree)
    ensures forall i: nat :: Exists(tree, AtImage(p, r, i)) ==>
      ImageAt(Toggled(tree, cursor), p, r, i) == Mark(ImageAt(tree, p, r, i), true)
    ensures forall p': nat, r': nat, i': nat :: Exists(tree, AtImage(p', r', i')) && (p', r') != (p, r) ==>
      ImageAt(Toggled(tree, cursor), p', r', i') == ImageAt(tree, p', r', i')
  {
    FlatNodeAt(tree, cursor);
    ToggledShape(tree, cursor);
  }

  /** On a project or a registry, toggling again changes nothing more: it always selects. */
  lemma ToggleGroupIdempotent(tree: seq<ProjectNode>, cursor: nat)
    requires cursor < |FlatNodes(tree)| && !FlatNodes(tree)[cursor].AtImage?
    ensures Toggled(Toggled(tree, cursor), cursor) == Toggled(tree, cursor)
  {
    FlatNodeAt(tree, cursor);
    ToggledShape(tree, cursor);
    var t1 := Toggled(tree, cursor);
    match FlatNodes(tree)[cursor]
    case AtRegistry(p, r) =>
      var imgs := t1[p].registries[r].images;
      assert MarkAll(imgs, true) == imgs;
      assert SelectRegistry(t1, p, r)[p].registries == t1[p].registries;
    case AtProject(p) =>
      var regs := t1[p].registries;
      var t2 := SelectProject(t1, p);
      forall j | 0 <= j < |regs| ensures t2[p].registries[j] == regs[j] {
        assert MarkAll(regs[j].images, true) == regs[j].images;
      }
      assert t2[p].registries == regs;
      assert t2 == t1;
  }

  /** On an image whose node and image marks agree, toggling twice restores the tree. */
  lemma ToggleImageTwice(tree: seq<ProjectNode>, cursor: nat, p: nat, r: nat, i: nat)
    requires cursor < |FlatNodes(tree)| && FlatNodes(tree)[cursor] == AtImage(p, r, i)
    requires Exists(tree, AtImage(p, r, i)) && ImageAt(tree, p, r, i).item.selected == ImageAt(tree, p, r, i).selected
    ensures Toggled(Toggled(tree, cursor), cursor) == tree
  {
    ToggledShape(tree, cursor);
    var n := ImageAt(tree, p, r, i);
    var t1 := MarkImage(tree, p, r, i, !n.selected);
    assert Toggled(tree, cursor) == t1;
    assert t1[p].registries[r].images[i] == Mark(n, !n.selected);
    assert Mark(Mark(n, !n.selected), n.selected) == n;
    var t2 := MarkImage(t1, p, r, i, n.selected);
    assert Toggled(t1, cursor) == t2;
    assert t2[p].registries[r].images == tree[p].registries[r].images;
    assert t2[p].registries == tree[p].registries;
    assert t2 == tree;
  }

  // ---------------------------------------------------------------------------------
  // toggleExpand and toggleExpandAll

  /**
   * toggleExpand with the cursor at `cursor`: a project or a registry flips its
   * expansion; an image has nothing to expand.
   */
  function ExpandToggled(tree: seq<ProjectNode>, cursor: nat): seq<ProjectNode> {
    var flat := FlatNodes(tree);
    if cursor >= |flat| then tree
    else
      FlatNodeAt(tree, cursor);
      match flat[cursor]
      case AtImage(_, _, _) => tree
      case AtRegistry(p, r) =>
        var regs := tree[p].registries;
        tree[p := tree[p].(registries := regs[r := regs[r].(expanded := !regs[r].expanded)])]
      case AtProject(p) => tree[p := tree[p].(expanded := !tree[p].expanded)]
  }

  /** Only the expansion flag of the cursor's node changes; every image node stays as it was. */
  lemma ExpandToggledFlips(tree: seq<ProjectNode>, cursor: nat)
    requires cursor < |FlatNodes(tree)|
    ensures var t := ExpandToggled(tree, cursor);
      && |t| == |tree|
      && (forall pos :: Exists(t, pos) <==> Exists(tree, pos))
      && (forall p: nat, r: nat, i: nat :: Exists(tree, AtImage(p, r, i)) ==> ImageAt(t, p, r, i) == ImageAt(tree, p, r, i))
    ensures var t := ExpandToggled(tree, cursor);
      match FlatNodes(tree)[cursor]
      case AtImage(_, _, _) => t == tree
      case AtProject(p) => p < |tree| && t[p].expanded == !tree[p].expanded
      case AtRegistry(p, r) =>
        Exists(tree, AtRegistry(p, r)) && t[p].registries[r].expanded == !tree[p].registries[r].expanded
  {
    FlatNodeAt(tree, cursor);
  }

  /** No project node is expanded. */
  predicate NoneExpanded(tree: seq<ProjectNode>) {
    forall k :: 0 <= k < |tree| ==> !tree[k].expanded
  }

  /** Every project and registry node expanded (`e`) or collapsed (not `e`). */
  function SetExpansion(tree: seq<ProjectNode>, e: bool): seq<ProjectNode> {
    seq(|tree|, k requires 0 <= k < |tree| =>
      var regs := tree[k].registries;
      tree[k].(expanded := e, registries := seq(|regs|, j requires 0 <= j < |regs| => regs[j].(expanded := e))))
  }

  /** Expanding everything shows every node. */
  lemma ExpandAllShowsAll(tree: seq<ProjectNode>, pos: Pos)
    ensures Exists(SetExpansion(tree, true), pos) <==> Exists(tree, pos)
    ensures pos in FlatNodes(SetExpansion(tree, true)) <==> Exists(tree, pos)
  {
    FlatNodesShown(SetExpansion(tree, true), pos);
  }

  /** Collapsing everything shows the project nodes only. */
  lemma CollapseAllShowsProjects(tree: seq<ProjectNode>, pos: Pos)
    ensures pos in FlatNodes(SetExpansion(tree, false)) <==> pos.AtProject? && pos.p < |tree|
  {
    FlatNodesShown(SetExpansion(tree, false), pos);
  }

  /** Changing the expansion touches no image node. */
  lemma SetExpansionKeepsImages(tree: seq<ProjectNode>, e: bool, p: nat, r: nat, i: nat)
    requires Exists(tree, AtImage(p, r, i))
    ensures Exists(SetExpansion(tree, e), AtImage(p, r, i))
    ensures ImageAt(SetExpansion(tree, e), p, r, i) == ImageAt(tree, p, r, i)
  {
  }

  // ---------------------------------------------------------------------------------
  // getSelectedCount and getSelectedImages

  function SelectedIn(images: seq<ImageNode>): seq<ImageItem> {
    if |images| == 0 then []
    else
      var n := images[|images| - 1];
      SelectedIn(images[..|images| - 1]) + (if n.selected then [n.item] else [])
  }

  function SelectedInRegistries(regs: seq<RegistryNode>): seq<ImageItem> {
    if |regs| == 0 then [] else SelectedInRegistries(regs[..|regs| - 1]) + SelectedIn(regs[|regs| - 1].images)
  }

  /** getSelectedImages: the images of the selected image nodes, in pre-order, collapsed or not. */
  function SelectedImages(tree: seq<ProjectNode>): seq<ImageItem> {
    if |tree| == 0 then [] else SelectedImages(tree[..|tree| - 1]) + SelectedInRegistries(tree[|tree| - 1].registries)
  }

  function CountIn(images: seq<ImageNode>): nat {
    if |images| == 0 then 0 else (if images[0].selected then 1 else 0) + CountIn(images[1..])
  }

  function CountInRegistries(regs: seq<RegistryNode>): nat {
    if |regs| == 0 then 0 else CountIn(regs[0].images) + CountInRegistries(regs[1..])
  }

  /** getSelectedCount: the number of selected image nodes. */
  function SelectedCount(tree: seq<ProjectNode>): nat {
    if |tree| == 0 then 0 else CountInRegistries(tree[0].registries) + SelectedCount(tree[1..])
  }

  lemma {:induction false} CountInIsLength(images: seq<ImageNode>)
    ensures CountIn(images) == |SelectedIn(images)|
  {
    if |images| > 0 {
      var init := images[..|images| - 1];
      CountInIsLength(init);
      if |init| > 0 {
        CountInIsLength(init[1..]);
        CountInIsLength(images[1..]);
        assert images[1..][..|images| - 2] == init[1..];
      }
    }
  }

  lemma {:induction false} CountInRegistriesIsLength(regs: seq<RegistryNode>)
    ensures CountInRegistries(regs) == |SelectedInRegistries(regs)|
  {
    if |regs| > 0 {
      var init := regs[..|regs| - 1];
      CountInRegistriesIsLength(init);
      CountInIsLength(regs[|regs| - 1].images);
      if |init| > 0 {
        CountInRegistriesIsLength(regs[1..]);
        CountInRegistriesIsLength(init[1..]);
        CountInIsLength(regs[0].images);
        assert regs[1..][..|regs| - 2] == init[1..];
      }
    }
  }

  /** getSelectedCount equals the length of getSelectedImages. */
  lemma {:induction false} SelectedCountIsLength(tree: seq<ProjectNode>)
    ensures SelectedCount(tree) == |SelectedImages(tree)|
  {
    if |tree| > 0 {
      var init := tree[..|tree| - 1];
      SelectedCountIsLength(init);
      CountInRegistriesIsLength(tree[|tree| - 1].registries);
      if |init| > 0 {
        SelectedCountIsLength(tree[1..]);
        SelectedCountIsLength(init[1..]);
        CountInRegistriesIsLength(tree[0].registries);
        assert tree[1..][..|tree| - 2] == init[1..];
      }
    }
  }

  // ---------------------------------------------------------------------------------
  // Membership of getSelectedImages

  lemma {:induction false} SelectedInMembers(images: seq<ImageNode>, x: ImageItem)
    ensures x in SelectedIn(images) <==> exists i :: 0 <= i < |images| && images[i].selected && images[i].item == x
  {
    if |images| > 0 {
      var init := images[..|images| - 1];
      SelectedInMembers(init, x);
      if exists i :: 0 <= i < |images| && images[i].selected && images[i].item == x {
        var i :| 0 <= i < |images| && images[i].selected && images[i].item == x;
        if i < |init| {
          assert init[i] == images[i];
        }
      }
    }
  }

  lemma {:induction false} SelectedInRegistriesMembers(regs: seq<RegistryNode>, x: ImageItem)
    ensures x in SelectedInRegistries(regs) <==>
      exists j, i :: 0 <= j < |regs| && 0 <= i < |regs[j].images| && regs[j].images[i].selected && regs[j].images[i].item == x
  {
    if |regs| > 0 {
      var init := regs[..|regs| - 1];
      var last := regs[|regs| - 1];
      SelectedInRegistriesMembers(init, x);
      SelectedInMembers(last.images, x);
      if x in SelectedInRegistries(regs) {
        if x in SelectedInRegistries(init) {
          var j, i :| 0 <= j < |init| && 0 <= i < |init[j].images| && init[j].images[i].selected && init[j].images[i].item == x;
          assert regs[j] == init[j];
        } else {
          var i :| 0 <= i < |last.images| && last.images[i].selected && last.images[i].item == x;
          assert regs[|regs| - 1].images[i] == last.images[i];
        }
      }
      if exists j, i :: 0 <= j < |regs| && 0 <= i < |regs[j].images| && regs[j].images[i].selected && regs[j].images[i].item == x {
        var j, i :| 0 <= j < |regs| && 0 <= i < |regs[j].images| && regs[j].images[i].selected && regs[j].images[i].item == x;
        if j < |init| {
          assert init[j] == regs[j];
        }
      }
    }
  }

  /** The image node at (p, r, i) exists, is selected and holds `x`. */
  predicate SelectedAt(tree: seq<ProjectNode>, p: nat, r: nat, i: nat, x: ImageItem) {
    Exists(tree, AtImage(p, r, i)) && ImageAt(tree, p, r, i).selected && ImageAt(tree, p, r, i).item == x
  }

  lemma {:induction false} SelectedImagesFound(tree: seq<ProjectNode>, x: ImageItem) returns (p: nat, r: nat, i: nat)
    requires x in SelectedImages(tree)
    ensures SelectedAt(tree, p, r, i, x)
  {
    var init := tree[..|tree| - 1];
    var last := tree[|tree| - 1];
    if x in SelectedImages(init) {
      p, r, i := SelectedImagesFound(init, x);
      assert tree[p] == init[p];
    } else {
      SelectedInRegistriesMembers(last.registries, x);
      var r', i' :| 0 <= r' < |last.registries| && 0 <= i' < |last.registries[r'].images|
        && last.registries[r'].images[i'].selected && last.registries[r'].images[i'].item == x;
      p, r, i := |tree| - 1, r', i';
    }
  }

  lemma {:induction false} SelectedImagesHas(tree: seq<ProjectNode>, p: nat, r: nat, i: nat, x: ImageItem)
    requires SelectedAt(tree, p, r, i, x)
    ensures x in SelectedImages(tree)
  {
    var init := tree[..|tree| - 1];
    if p < |init| {
      assert init[p] == tree[p];
      SelectedImagesHas(init, p, r, i, x);
    } else {
      SelectedInRegistriesMembers(tree[p].registries, x);
    }
  }

  /** An image is in getSelectedImages exactly when some selected image node holds it. */
  lemma SelectedImagesMembers(tree: seq<ProjectNode>, x: ImageItem)
    ensures x in SelectedImages(tree) <==> exists p: nat, r: nat, i: nat :: SelectedAt(tree, p, r, i, x)
  {
    if x in SelectedImages(tree) {
      var p, r, i := SelectedImagesFound(tree, x);
    }
    if exists p: nat, r: nat, i: nat :: SelectedAt(tree, p, r, i, x) {
      var p: nat, r: nat, i: nat :| SelectedAt(tree, p, r, i, x);
      SelectedImagesHas(tree, p, r, i, x);
    }
  }

  // ---------------------------------------------------------------------------------
  // RestoreSelections

  /** Every image node marked selected exactly when its key is among `keys`. */
  function Reselect(tree: seq<ProjectNode>, keys: set<Key>): seq<ProjectNode> {
    seq(|tree|, k requires 0 <= k < |tree| =>
      var regs := tree[k].registries;
      tree[k].(registries := seq(|regs|, j requires 0 <= j < |regs| =>
        var imgs := regs[j].images;
        regs[j].(images := seq(|imgs|, i requires 0 <= i < |imgs| => Mark(imgs[i], KeyOf(imgs[i].item) in keys)))))
    )
  }

  /** Restoring keeps the tree's shape and sets every image's mark from its key alone. */
  lemma ReselectMarks(tree: seq<ProjectNode>, keys: set<Key>)
    ensures SameShape(Reselect(tree, keys), tree)
    ensures forall pos :: Exists(Reselect(tree, keys), pos) <==> Exists(tree, pos)
    ensures forall p: nat, r: nat, i: nat :: Exists(tree, AtImage(p, r, i)) ==>
      ImageAt(Reselect(tree, keys), p, r, i) == Mark(ImageAt(tree, p, r, i), KeyOf(ImageAt(tree, p, r, i).item) in keys)
  {
  }

  /**
   * After restoring from a list of keys, the selected images are exactly the images of
   * the tree whose key is in the list, marked selected.
   */
  /** The image node at (p, r, i) exists, its key is in `keys`, and `x` is its image marked selected. */
  predicate ChosenAt(tree: seq<ProjectNode>, keys: set<Key>, p: nat, r: nat, i: nat, x: ImageItem) {
    Exists(tree, AtImage(p, r, i)) && KeyOf(ImageAt(tree, p, r, i).item) in keys
    && x == ImageAt(tree, p, r, i).item.(selected := true)
  }

  lemma ReselectFound(tree: seq<ProjectNode>, keys: set<Key>, x: ImageItem) returns (p: nat, r: nat, i: nat)
    requires x in SelectedImages(Reselect(tree, keys))
    ensures ChosenAt(tree, keys, p, r, i, x)
  {
    p, r, i := SelectedImagesFound(Reselect(tree, keys), x);
  }

  lemma ReselectHas(tree: seq<ProjectNode>, keys: set<Key>, p: nat, r: nat, i: nat, x: ImageItem)
    requires ChosenAt(tree, keys, p, r, i, x)
    ensures x in SelectedImages(Reselect(tree, keys))
  {
    SelectedImagesHas(Reselect(tree, keys), p, r, i, x);
  }

  /**
   * After restoring from a list of keys, the selected images are exactly the images of
   * the tree whose key is in the list, marked selected.
   */
  lemma ReselectSelected(tree: seq<ProjectNode>, keys: set<Key>, x: ImageItem)
    ensures x in SelectedImages(Reselect(tree, keys)) <==> exists p: nat, r: nat, i: nat :: ChosenAt(tree, keys, p, r, i, x)
  {
    if x in SelectedImages(Reselect(tree, keys)) {
      var p, r, i := ReselectFound(tree, keys, x);
    }
    if exists p: nat, r: nat, i: nat :: ChosenAt(tree, keys, p, r, i, x) {
      var p: nat, r: nat, i: nat :| ChosenAt(tree, keys, p, r, i, x);
      ReselectHas(tree, keys, p, r, i, x);
    }
  }

  // ---------------------------------------------------------------------------------
  // removeDeletedImages

  /** The image nodes whose key is not in `keys`, in order. */
  function Keep(images: seq<ImageNode>, keys: set<Key>): (kept: seq<ImageNode>)
    ensures |kept| <= |images|
  {
    if |images| == 0 then []
    else
      var n := images[|images| - 1];
      Keep(images[..|images| - 1], keys) + (if KeyOf(n.item) in keys then [] else [n])
  }

  lemma {:induction false} KeepMembers(images: seq<ImageNode>, keys: set<Key>, n: ImageNode)
    ensures n in Keep(images, keys) <==> n in images && KeyOf(n.item) !in keys
  {
    if |images| > 0 {
      KeepMembers(images[..|images| - 1], keys, n);
      assert images == images[..|images| - 1] + [images[|images| - 1]];
    }
  }

  /** The tree with the image nodes whose key is in `keys` removed; projects and registries all stay. */
  function Prune(tree: seq<ProjectNode>, keys: set<Key>): seq<ProjectNode> {
    seq(|tree|, k requires 0 <= k < |tree| =>
      var regs := tree[k].registries;
      tree[k].(registries := seq(|regs|, j requires 0 <= j < |regs| => regs[j].(images := Keep(regs[j].images, keys)))))
  }

  function ItemsOf(images: seq<ImageNode>): seq<ImageItem> {
    seq(|images|, i requires 0 <= i < |images| => images[i].item)
  }

  function ItemsInRegistries(regs: seq<RegistryNode>): seq<ImageItem> {
    if |regs| == 0 then [] else ItemsInRegistries(regs[..|regs| - 1]) + ItemsOf(regs[|regs| - 1].images)
  }

  /** collectImages: the images of every image node, in pre-order. */
  function AllImages(tree: seq<ProjectNode>): seq<ImageItem> {
    if |tree| == 0 then [] else AllImages(tree[..|tree| - 1]) + ItemsInRegistries(tree[|tree| - 1].registries)
  }

  lemma {:induction false} ItemsInRegistriesSize(regs: seq<RegistryNode>)
    ensures |ItemsInRegistries(regs)| == RegistriesSize(regs)
  {
    if |regs| > 0 {
      ItemsInRegistriesSize(regs[..|regs| - 1]);
    }
  }

  /** collectImages lists one image per image node. */
  lemma {:induction false} AllImagesSize(tree: seq<ProjectNode>)
    ensures |AllImages(tree)| == TreeSize(tree)
  {
    if |tree| > 0 {
      AllImagesSize(tree[..|tree| - 1]);
      ItemsInRegistriesSize(tree[|tree| - 1].registries);
    }
  }

  lemma {:induction false} ItemsInRegistriesMembers(regs: seq<RegistryNode>, x: ImageItem)
    ensures x in ItemsInRegistries(regs) <==>
      exists j, i :: 0 <= j < |regs| && 0 <= i < |regs[j].images| && regs[j].images[i].item == x
  {
    if |regs| > 0 {
      var init := regs[..|regs| - 1];
      var last := regs[|regs| - 1];
      ItemsInRegistriesMembers(init, x);
      if x in ItemsInRegistries(regs) {
        if x in ItemsInRegistries(init) {
          var j, i :| 0 <= j < |init| && 0 <= i < |init[j].images| && init[j].images[i].item == x;
          assert regs[j] == init[j];
        } else {
          var i :| 0 <= i < |last.images| && ItemsOf(last.images)[i] == x;
          assert regs[|regs| - 1].images[i].item == x;
        }
      }
      if exists j, i :: 0 <= j < |regs| && 0 <= i < |regs[j].images| && regs[j].images[i].item == x {
        var j, i :| 0 <= j < |regs| && 0 <= i < |regs[j].images| && regs[j].images[i].item == x;
        if j < |init| {
          assert init[j] == regs[j];
        } else {
          assert ItemsOf(last.images)[i] == x;
        }
      }
    }
  }

  /** The image node at (p, r, i) exists and holds `x`. */
  predicate HeldAt(tree: seq<ProjectNode>, p: nat, r: nat, i: nat, x: ImageItem) {
    Exists(tree, AtImage(p, r, i)) && ImageAt(tree, p, r, i).item == x
  }

  lemma {:induction false} AllImagesFound(tree: seq<ProjectNode>, x: ImageItem) returns (p: nat, r: nat, i: nat)
    requires x in AllImages(tree)
    ensures HeldAt(tree, p, r, i, x)
  {
    var init := tree[..|tree| - 1];
    var last := tree[|tree| - 1];
    if x in AllImages(init) {
      p, r, i := AllImagesFound(init, x);
      assert tree[p] == init[p];
    } else {
      ItemsInRegistriesMembers(last.registries, x);
      var r', i' :| 0 <= r' < |last.registries| && 0 <= i' < |last.registries[r'].images|
        && last.registries[r'].images[i'].item == x;
      p, r, i := |tree| - 1, r', i';
    }
  }

  lemma {:induction false} AllImagesHas(tree: seq<ProjectNode>, p: nat, r: nat, i: nat, x: ImageItem)
    requires HeldAt(tree, p, r, i, x)
    ensures x in AllImages(tree)
  {
    var init := tree[..|tree| - 1];
    if p < |init| {
      assert init[p] == tree[p];
      AllImagesHas(init, p, r, i, x);
    } else {
      ItemsInRegistriesMembers(tree[p].registries, x);
    }
  }

  /** An image is collected exactly when some image node holds it. */
  lemma AllImagesMembers(tree: seq<ProjectNode>, x: ImageItem)
    ensures x in AllImages(tree) <==> exists p: nat, r: nat, i: nat :: HeldAt(tree, p, r, i, x)
  {
    if x in AllImages(tree) {
      var p, r, i := AllImagesFound(tree, x);
    }
    if exists p: nat, r: nat, i: nat :: HeldAt(tree, p, r, i, x) {
      var p: nat, r: nat, i: nat :| HeldAt(tree, p, r, i, x);
      AllImagesHas(tree, p, r, i, x);
    }
  }

  /** removeDeletedImages never removes a project or a registry node, nor changes one. */
  lemma PruneKeepsNodes(tree: seq<ProjectNode>, keys: set<Key>)
    ensures |Prune(tree, keys)| == |tree|
    ensures forall k :: 0 <= k < |tree| ==>
      Prune(tree, keys)[k].(registries := tree[k].registries) == tree[k]
      && |Prune(tree, keys)[k].registries| == |tree[k].registries|
    ensures forall k, j :: 0 <= k < |tree| && 0 <= j < |tree[k].registries| ==>
      Prune(tree, keys)[k].registries[j].(images := tree[k].registries[j].images) == tree[k].registries[j]
  {
  }

  /**
   * After removeDeletedImages the collected images are exactly the tree's images whose
   * key was not deleted.
   */
  lemma PruneImages(tree: seq<ProjectNode>, keys: set<Key>, x: ImageItem)
    ensures x in AllImages(Prune(tree, keys)) <==> x in AllImages(tree) && KeyOf(x) !in keys
  {
    var t := Prune(tree, keys);
    if x in AllImages(t) {
      var p, r, i := AllImagesFound(t, x);
      KeepMembers(tree[p].registries[r].images, keys, ImageAt(t, p, r, i));
      var i' :| 0 <= i' < |tree[p].registries[r].images| && tree[p].registries[r].images[i'] == ImageAt(t, p, r, i);
      AllImagesHas(tree, p, r, i', x);
    }
    if x in AllImages(tree) && KeyOf(x) !in keys {
      var p, r, i := AllImagesFound(tree, x);
      var n := ImageAt(tree, p, r, i);
      KeepMembers(tree[p].registries[r].images, keys, n);
      var imgs := t[p].registries[r].images;
      var i' :| 0 <= i' < |imgs| && imgs[i'] == n;
      AllImagesHas(t, p, r, i', x);
    }
  }

  // ---------------------------------------------------------------------------------
  // deleteSelected

  /** The tag deletions issued for `items`, one per image, in order. */
  function DeleteCalls(items: seq<ImageItem>): (calls: seq<Call>)
    ensures |calls| == |items|
    ensures forall i :: 0 <= i < |items| ==>
      calls[i] == Call.DeleteTag(items[i].projectId, items[i].registryId, items[i].info.name)
  {
    if |items| == 0 then []
    else
      var x := items[|items| - 1];
      DeleteCalls(items[..|items| - 1]) + [Call.DeleteTag(x.projectId, x.registryId, x.info.name)]
  }

  /** The number of deletions among `items` that the registry refuses. */
  function Failures(env: Env, items: seq<ImageItem>): (n: nat)
    ensures n <= |items|
  {
    if |items| == 0 then 0
    else
      var x := items[|items| - 1];
      Failures(env, items[..|items| - 1]) + (if env.deleteTag(x.projectId, x.registryId, x.info.name).Fail? then 1 else 0)
  }

  /** The set of keys of a list of images, built one image at a time. */
  method KeySet(items: seq<ImageItem>) returns (keys: set<Key>)
    ensures keys == KeysOf(items)
  {
    keys := {};
    var i := 0;
    while i < |items|
      invariant 0 <= i <= |items|
      invariant keys == KeysOf(items[..i])
    {
      assert items[..i + 1] == items[..i] + [items[i]];
      keys := keys + {KeyOf(items[i])};
      i := i + 1;
    }
    assert items[..i] == items;
  }

  /** buildTree's loop. */
  method BuildTree(images: seq<ImageItem>) returns (tree: seq<ProjectNode>)
    ensures tree == Tree(images)
  {
    tree := [];
    var i := 0;
    while i < |images|
      invariant 0 <= i <= |images|
      invariant tree == Tree(images[..i])
    {
      assert images[..i + 1][..i] == images[..i];
      tree := AddImage(tree, images[i]);
      i := i + 1;
    }
    assert images[..i] == images;
  }

  /** `cursor` moved by `delta` and kept on the visible nodes; unchanged when none is visible. */
  function MovedCursor(tree: seq<ProjectNode>, cursor: nat, delta: int): (c: nat)
    ensures |FlatNodes(tree)| == 0 ==> c == cursor
    ensures |FlatNodes(tree)| > 0 ==> c < |FlatNodes(tree)|
    ensures 0 <= cursor + delta < |FlatNodes(tree)| ==> c == cursor + delta
    ensures |FlatNodes(tree)| > 0 && cursor + delta < 0 ==> c == 0
    ensures |FlatNodes(tree)| > 0 && cursor + delta >= |FlatNodes(tree)| ==> c == |FlatNodes(tree)| - 1
  {
    var n := |FlatNodes(tree)|;
    if n == 0 then cursor else Clamp(cursor + delta, n - 1)
  }

  // ---------------------------------------------------------------------------------
  // Update

  /** The messages the selector reacts to. */
  datatype Msg =
    | QuitMsg
    | DeletionComplete(deleted: int, failed: int)
    | WindowSize(width: int, height: int)
    | KeyPress(key: string)
    | OtherMsg

  /** What Update hands back to the event loop. */
  datatype Command =
    | NoCommand
    | Exit           // stop the event loop
    | SendQuit       // deliver QuitMsg next
    | StartDeletion  // run the deletion of the selected images

  /** The selector's state, as a value. */
  datatype State = State(
    images: seq<ImageItem>, tree: seq<ProjectNode>, cursor: nat,
    showConfirm: bool, showQuitConfirm: bool, deleting: bool,
    deletedCount: int, failedCount: int, width: int, height: int,
    finalSelected: seq<ImageItem>)

  predicate IsYes(msg: Msg) { msg.KeyPress? && (msg.key == "y" || msg.key == "Y") }
  predicate IsNo(msg: Msg) { msg.KeyPress? && (msg.key == "n" || msg.key == "N" || msg.key == "esc") }

  /** updateQuitConfirm. */
  function QuitConfirmStep(s: State, msg: Msg): (State, Command) {
    if IsYes(msg) then (s.(showQuitConfirm := false, finalSelected := SelectedImages(s.tree)), SendQuit)
    else if IsNo(msg) then (s.(showQuitConfirm := false), NoCommand)
    else (s, NoCommand)
  }

  /** updateConfirm. */
  function ConfirmStep(s: State, msg: Msg): (State, Command) {
    if IsYes(msg) then (s.(showConfirm := false, deleting := true), StartDeletion)
    else if IsNo(msg) then (s.(showConfirm := false), NoCommand)
    else (s, NoCommand)
  }

  /** A key press with no dialog open and no deletion running. */
  function KeyStep(s: State, k: string): State {
    if k == "ctrl+c" || k == "q" then s.(showQuitConfirm := true)
    else if k == "up" || k == "k" then s.(cursor := MovedCursor(s.tree, s.cursor, -1))
    else if k == "down" || k == "j" then s.(cursor := MovedCursor(s.tree, s.cursor, 1))
    else if k == " " then s.(tree := Toggled(s.tree, s.cursor))
    else if k == "enter" then s.(tree := ExpandToggled(s.tree, s.cursor))
    else if k == "tab" then s.(tree := SetExpansion(s.tree, NoneExpanded(s.tree)))
    else if k == "d" && SelectedCount(s.tree) > 0 then s.(showConfirm := true)
    else s
  }

  /** Update: the quit and completion messages first, then the open dialog, then the key bindings. */
  function Step(s: State, msg: Msg): (State, Command) {
    match msg
    case QuitMsg => (s, Exit)
    case DeletionComplete(d, f) => (s.(deletedCount := d, failedCount := f, deleting := false), NoCommand)
    case _ =>
      if s.showQuitConfirm then QuitConfirmStep(s, msg)
      else if s.showConfirm then ConfirmStep(s, msg)
      else if s.deleting then (s, NoCommand)
      else if msg.WindowSize? then (s.(width := msg.width, height := msg.height), NoCommand)
      else if msg.KeyPress? then (KeyStep(s, msg.key), NoCommand)
      else (s, NoCommand)
  }

  /** GetSelectedImages: the selection saved on quit, or else the current one. */
  function Chosen(s: State): seq<ImageItem> {
    if |s.finalSelected| > 0 then s.finalSelected else SelectedImages(s.tree)
  }

  /** At most one of the two dialogs and the running deletion. */
  predicate OneMode(s: State) {
    !(s.showConfirm && s.showQuitConfirm) && !(s.showConfirm && s.deleting) && !(s.showQuitConfirm && s.deleting)
  }

  /** Every message keeps at most one dialog or deletion active. */
  lemma StepKeepsOneMode(s: State, msg: Msg)
    requires OneMode(s)
    ensures OneMode(Step(s, msg).0)
  {
  }

  /** While a deletion runs, keys and resizes are ignored. */
  lemma DeletingIgnoresInput(s: State, msg: Msg)
    requires OneMode(s) && s.deleting
    requires msg.KeyPress? || msg.WindowSize? || msg.OtherMsg?
    ensures Step(s, msg) == (s, NoCommand)
  {
  }

  /** A deletion starts only from the open delete dialog, on y or Y. */
  lemma DeletionNeedsConfirm(s: State, msg: Msg)
    ensures Step(s, msg).1 == StartDeletion <==>
      !msg.QuitMsg? && !msg.DeletionComplete? && !s.showQuitConfirm && s.showConfirm && IsYes(msg)
  {
  }

  /** The delete dialog opens on d exactly when something is selected. */
  lemma DeleteDialogNeedsSelection(s: State)
    requires !s.showConfirm && !s.showQuitConfirm && !s.deleting
    ensures Step(s, KeyPress("d")).0.showConfirm <==> |SelectedImages(s.tree)| > 0
  {
    SelectedCountIsLength(s.tree);
  }

  /** The event loop stops only on QuitMsg, and QuitMsg is sent only by confirming the quit dialog. */
  lemma QuitOnlyConfirmed(s: State, msg: Msg)
    ensures Step(s, msg).1 == Exit <==> msg.QuitMsg?
    ensures Step(s, msg).1 == SendQuit <==> !msg.QuitMsg? && !msg.DeletionComplete? && s.showQuitConfirm && IsYes(msg)
  {
  }

  /** Confirming the quit keeps the tree and hands back exactly the selection of that moment. */
  lemma QuitKeepsSelection(s: State)
    requires s.showQuitConfirm
    ensures Step(s, KeyPress("y")).0.tree == s.tree
    ensures Chosen(Step(s, KeyPress("y")).0) == SelectedImages(s.tree)
  {
  }

  /** Moving the cursor keeps it on a visible node whenever there is one. */
  lemma CursorStaysVisible(s: State, k: string)
    requires k in {"up", "k", "down", "j"} && |FlatNodes(s.tree)| > 0
    ensures KeyStep(s, k).cursor < |FlatNodes(s.tree)|
    ensures KeyStep(s, k).tree == s.tree
  {
  }

  // ---------------------------------------------------------------------------------
  // The selector

  class Selector {
    var images: seq<ImageItem>
    var tree: seq<ProjectNode>
    var cursor: nat
    const dryRun: bool
    var showConfirm: bool
    var showQuitConfirm: bool
    var deleting: bool
    var deletedCount: int
    var failedCount: int
    var width: int
    var height: int
    var finalSelected: seq<ImageItem>

    /** NewImageSelectorModel. */
    constructor (images: seq<ImageItem>, dryRun: bool)
      ensures this.images == images && this.dryRun == dryRun && tree == Tree(images) && cursor == 0
      ensures !showConfirm && !showQuitConfirm && !deleting && deletedCount == 0 && failedCount == 0
      ensures width == 0 && height == 0 && finalSelected == []
    {
      var t := BuildTree(images);
      this.images := images;
      this.tree := t;
      this.cursor := 0;
      this.dryRun := dryRun;
      this.showConfirm := false;
      this.showQuitConfirm := false;
      this.deleting := false;
      this.deletedCount := 0;
      this.failedCount := 0;
      this.width := 0;
      this.height := 0;
      this.finalSelected := [];
    }

    function Snapshot(): State
      reads this
    {
      State(images, tree, cursor, showConfirm, showQuitConfirm, deleting, deletedCount, failedCount, width, height, finalSelected)
    }

    /** GetSelectedImages. */
    function GetSelectedImages(): (r: seq<ImageItem>)
      reads this
      ensures r == Chosen(Snapshot())
    {
      if |finalSelected| > 0 then finalSelected else SelectedImages(tree)
    }

    method MoveCursor(delta: int)
      modifies this`cursor
      ensures cursor == MovedCursor(tree, old(cursor), delta)
    {
      var n := |FlatNodes(tree)|;
      if n == 0 {
        return;
      }
      var c := cursor + delta;
      if c < 0 {
        cursor := 0;
      } else if c >= n {
        cursor := n - 1;
      } else {
        cursor := c;
      }
    }

    method ToggleSelection()
      modifies this`tree
      ensures tree == Toggled(old(tree), cursor)
    {
      var flat := FlatNodes(tree);
      if cursor >= |flat| {
        return;
      }
      FlatNodeAt(tree, cursor);
      match flat[cursor] {
        case AtImage(p, r, i) =>
          tree := MarkImage(tree, p, r, i, !tree[p].registries[r].images[i].selected);
        case AtRegistry(p, r) =>
          tree := SelectRegistry(tree, p, r);
        case AtProject(p) =>
          tree := SelectProject(tree, p);
      }
    }

    method ToggleExpand()
      modifies this`tree
      ensures tree == ExpandToggled(old(tree), cursor)
    {
      var flat := FlatNodes(tree);
      if cursor >= |flat| {
        return;
      }
      FlatNodeAt(tree, cursor);
      match flat[cursor] {
        case AtImage(_, _, _) =>
        case AtRegistry(p, r) =>
          var regs := tree[p].registries;
          tree := tree[p := tree[p].(registries := regs[r := regs[r].(expanded := !regs[r].expanded)])];
        case AtProject(p) =>
          tree := tree[p := tree[p].(expanded := !tree[p].expanded)];
      }
    }

    /** toggleExpandAll: collapse everything when some project is expanded, else expand everything. */
    method ToggleExpandAll()
      modifies this`tree
      ensures tree == SetExpansion(old(tree), NoneExpanded(old(tree)))
    {
      var t := tree;
      var expand := true;
      var k := 0;
      while k < |t|
        invariant 0 <= k <= |t|
        invariant expand
        invariant forall j :: 0 <= j < k ==> !t[j].expanded
      {
        if t[k].expanded {
          expand := false;
          break;
        }
        k := k + 1;
      }
      tree := SetExpansion(t, expand);
    }

    /** RestoreSelections: mark exactly the images whose key is in `selected`, and forget the saved selection. */
    method RestoreSelections(selected: seq<ImageItem>)
      modifies this`tree, this`finalSelected
      ensures tree == Reselect(old(tree), KeysOf(selected)) && finalSelected == []
    {
      var keys := KeySet(selected);
      tree := Reselect(tree, keys);
      finalSelected := [];
    }

    /** removeDeletedImages: drop the image nodes of `deleted` and recollect the images. */
    method RemoveDeletedImages(deleted: seq<ImageItem>)
      modifies this`tree, this`images
      ensures tree == Prune(old(tree), KeysOf(deleted)) && images == AllImages(tree)
    {
      var keys := KeySet(deleted);
      tree := Prune(tree, keys);
      images := AllImages(tree);
    }

    /**
     * The deletion loop of deleteSelected: delete each image of `sel` in order (in a dry run,
     * count it deleted without a call), counting the deleted and the failed ones.
     */
    method DeleteEach(platform: Platform, sel: seq<ImageItem>) returns (deleted: int, failed: int)
      modifies platform
      ensures dryRun ==> deleted == |sel| && failed == 0 && platform.log == old(platform.log)
      ensures !dryRun ==> failed == Failures(platform.env, sel) && deleted == |sel| - failed
      ensures !dryRun ==> platform.log == old(platform.log) + DeleteCalls(sel)
      ensures platform.ticks == old(platform.ticks)
    {
      deleted, failed := 0, 0;
      var i := 0;
      while i < |sel|
        invariant 0 <= i <= |sel|
        invariant dryRun ==> deleted == i && failed == 0 && platform.log == old(platform.log)
        invariant !dryRun ==> failed == Failures(platform.env, sel[..i]) && deleted == i - failed
        invariant !dryRun ==> platform.log == old(platform.log) + DeleteCalls(sel[..i])
        invariant platform.ticks == old(platform.ticks)
      {
        assert sel[..i + 1][..i] == sel[..i];
        if dryRun {
          deleted := deleted + 1;
        } else {
          var x := sel[i];
          var r := platform.DeleteTag(x.projectId, x.registryId, x.info.name);
          ConcatAssoc(old(platform.log), DeleteCalls(sel[..i]), [Call.DeleteTag(x.projectId, x.registryId, x.info.name)]);
          if r.Fail? {
            failed := failed + 1;
          } else {
            deleted := deleted + 1;
          }
        }
        i := i + 1;
      }
      assert sel[..i] == sel;
    }

    /**
     * deleteSelected: delete every selected image, then remove all of them from the tree,
     * the failed ones included.
     */
    method DeleteSelected(platform: Platform) returns (deleted: int, failed: int)
      modifies this`tree, this`images, platform
      ensures var sel := SelectedImages(old(tree));
        && (dryRun ==> deleted == |sel| && failed == 0 && platform.log == old(platform.log))
        && (!dryRun ==> failed == Failures(platform.env, sel) && deleted == |sel| - failed
                        && platform.log == old(platform.log) + DeleteCalls(sel))
        && tree == Prune(old(tree), KeysOf(sel)) && images == AllImages(tree)
      ensures platform.ticks == old(platform.ticks)
    {
      var sel := SelectedImages(tree);
      deleted, failed := DeleteEach(platform, sel);
      RemoveDeletedImages(sel);
    }

    /** handleDeletionComplete. */
    method HandleDeletionComplete(deleted: int, failed: int)
      modifies this`deletedCount, this`failedCount, this`deleting
      ensures deletedCount == deleted && failedCount == failed && !deleting
    {
      deletedCount := deleted;
      failedCount := failed;
      deleting := false;
    }

    method UpdateQuitConfirm(msg: Msg) returns (cmd: Command)
      modifies this`showQuitConfirm, this`finalSelected
      ensures (Snapshot(), cmd) == QuitConfirmStep(old(Snapshot()), msg)
    {
      cmd := NoCommand;
      if IsYes(msg) {
        showQuitConfirm := false;
        finalSelected := SelectedImages(tree);
        cmd := SendQuit;
      } else if IsNo(msg) {
        showQuitConfirm := false;
      }
    }

    method UpdateConfirm(msg: Msg) returns (cmd: Command)
      modifies this`showConfirm, this`deleting
      ensures (Snapshot(), cmd) == ConfirmStep(old(Snapshot()), msg)
    {
      cmd := NoCommand;
      if IsYes(msg) {
        showConfirm := false;
        deleting := true;
        cmd := StartDeletion;
      } else if IsNo(msg) {
        showConfirm := false;
      }
    }

    method UpdateKey(k: string)
      modifies this`showQuitConfirm, this`cursor, this`tree, this`showConfirm
      ensures Snapshot() == KeyStep(old(Snapshot()), k)
    {
      if k == "ctrl+c" || k == "q" {
        showQuitConfirm := true;
      } else if k == "up" || k == "k" {
        MoveCursor(-1);
      } else if k == "down" || k == "j" {
        MoveCursor(1);
      } else if k == " " {
        ToggleSelection();
      } else if k == "enter" {
        ToggleExpand();
      } else if k == "tab" {
        ToggleExpandAll();
      } else if k == "d" {
        if SelectedCount(tree) > 0 {
          showConfirm := true;
        }
      }
    }

    /** Update. */
    method Update(msg: Msg) returns (cmd: Command)
      modifies this
      ensures (Snapshot(), cmd) == Step(old(Snapshot()), msg)
    {
      if msg.QuitMsg? {
        return Exit;
      }
      if msg.DeletionComplete? {
        HandleDeletionComplete(msg.deleted, msg.failed);
        return NoCommand;
      }
      if showQuitConfirm {
        cmd := UpdateQuitConfirm(msg);
        return;
      }
      if showConfirm {
        cmd := UpdateConfirm(msg);
        return;
      }
      if deleting {
        return NoCommand;
      }
      if msg.WindowSize? {
        width := msg.width;
        height := msg.height;
      } else if msg.KeyPress? {
        UpdateKey(msg.key);
      }
      cmd := NoCommand;
    }
  }
}
