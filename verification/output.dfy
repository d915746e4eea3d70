/** The `output` record: where bundles go and how they are named. */
module Output {
  import opened Wrappers
  import opened Strings
  import opened Common

  /** `path` and `clean` are `None` where the key is absent or `undefined`. */
  datatype Output = Output(path: Option<Path>, filename: string, chunkFilename: string,
                           assetModuleFilename: string, clean: Option<bool>)

  const ContentHash := "[contenthash:10]"
  /** `static/js/[name].[contenthash:10].js` and its chunk counterpart. */
  const HashedFilename := "static/js/[name]." + ContentHash + ".js"
  const HashedChunkFilename := "static/js/[name]." + ContentHash + ".chunk.js"
  const PlainFilename := "static/js/[name].js"
  const PlainChunkFilename := "static/js/[name].chunk.js"
  /** The placeholder webpack fills with an asset module's own hash. */
  const AssetHash := "[hash:10]"
  /** `static/media/[hash:10][ext][query]`. */
  const AssetModuleFilename := "static/media/" + AssetHash + "[ext][query]"

  /** A template carries the bundle placeholder `[contenthash:10]`. */
  predicate Hashed(template: string) {
    Contains(template, ContentHash)
  }

  /** The production templates carry the hash and the development ones do not. */
  lemma HashedTemplates()
    ensures Hashed(HashedFilename) && Hashed(HashedChunkFilename)
    ensures !Hashed(PlainFilename) && !Hashed(PlainChunkFilename)
  {
    ContainsBetween("static/js/[name].", ContentHash, ".js");
    ContainsBetween("static/js/[name].", ContentHash, ".chunk.js");
    PlainTemplatesUnhashed();
  }

  /** The development templates lack the `:` every hash placeholder has. */
  lemma PlainTemplatesUnhashed()
    ensures !Hashed(PlainFilename) && !Hashed(PlainChunkFilename)
  {
    MissingCharExcludes(PlainFilename, ContentHash, ':');
    MissingCharExcludes(PlainChunkFilename, ContentHash, ':');
  }

  /** The `output` of both combined files. */
  function CombinedOutput(mode: Mode): (o: Output)
    ensures Hashed(o.filename) <==> mode == Production
    ensures Hashed(o.chunkFilename) <==> mode == Production
    ensures o.path.Some? <==> mode == Production
    ensures o.path.Some? ==> o.path.value == DistDir
    ensures o.clean == Some(true)
  {
    HashedTemplates();
    var prod := mode == Production;
    Output(if prod then Some(DistDir) else None,
           if prod then HashedFilename else PlainFilename,
           if prod then HashedChunkFilename else PlainChunkFilename,
           AssetModuleFilename,
           Some(true))
  }

  /** The asset file name does not depend on the mode: in both modes it is
      named by the asset's own `[hash:10]`, not by `[contenthash:10]`. */
  lemma AssetNamesModeIndependent()
    ensures CombinedOutput(Development).assetModuleFilename == CombinedOutput(Production).assetModuleFilename
    ensures Contains(CombinedOutput(Development).assetModuleFilename, AssetHash)
    ensures !Hashed(CombinedOutput(Development).assetModuleFilename)
  {
    ContainsBetween("static/media/", AssetHash, "[ext][query]");
    MissingCharExcludes(AssetModuleFilename, ContentHash, 'o');
  }
}
