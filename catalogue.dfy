/**
 * The static catalogue of `data/animations.ts`: the category list and the
 * animation records shown by the gallery, with the properties of that data
 * the pages rely on (distinct ids as React keys and routes, distinct
 * categories as React keys, every record filed under a listed category).
 */
module Catalogue {

  /** An animation record, the `Animation` type of `components/AnimationCard.tsx`. */
  datatype Animation = Animation(
    id: int,
    title: string,
    category: string,
    imageUrl: string,
    description: string,
    pagFile: string,
    avatar: string)

  const categories: seq<string> := [
    "动态按钮",
    "动态图标",
    "数据可视化",
    "品牌展示和营销素材",
    "交互反馈和微交互",
    "复杂路径动画",
    "教育与互动"
  ]

  const animations: seq<Animation> := [
    Animation(1, "渐变按钮", "动态按钮",
      "/animations/button1.png",
      "平滑过渡的渐变按钮效果，悬停时颜色渐变变化",
      "/pag-files/button.pag",
      "https://gdc.kg.qq.com/timage/2117/9e210d396a3c2f34887e37aaf93f5e15.png"),
    Animation(2, "菜单图标", "动态图标",
      "/animations/icon1.png",
      "汉堡菜单转换动画，点击时变为关闭图标",
      "/pag-files/icon.pag",
      "https://gdc.kg.qq.com/timage/2117/a6e829e990f4c058fbe1fd37f95bdcf1.png"),
    Animation(3, "数据柱状图", "数据可视化",
      "/animations/chart1.png",
      "柱状图生长动画效果，数据加载时平滑过渡",
      "/pag-files/bar.pag",
      "https://gdc.kg.qq.com/timage/2117/302c829e7693588d82f1156ad5f57a8e.png"),
    Animation(4, "品牌Logo展示", "品牌展示和营销素材",
      "/animations/brand1.png",
      "创意Logo揭示动画，元素逐个显示组合成完整logo",
      "/pag-files/logo.pag",
      "https://gdc.kg.qq.com/timage/2117/3f4c2bc41f4466d9e21b338a8c9e7339.png"),
    Animation(5, "点赞反馈", "交互反馈和微交互",
      "/animations/feedback1.png",
      "点赞按钮动画效果，点击时有弹跳和颜色变化",
      "/pag-files/like.pag",
      "https://gdc.kg.qq.com/timage/2117/6dedc99776aeb033fe6630978e05607e.png"),
    Animation(6, "签名动画", "复杂路径动画",
      "/animations/path1.png",
      "手写签名路径动画，模拟真实书写轨迹",
      "/pag-files/sign.pag",
      "https://gdc.kg.qq.com/timage/2117/8936ec346d652b70726242454d5c71ab.png"),
    Animation(7, "引导教程", "教育与互动",
      "/animations/edu1.png",
      "操作引导动画，高亮关键元素和操作步骤",
      "/pag-files/guide.pag",
      "https://gdc.kg.qq.com/timage/2117/612716a162869c73700547b4e104f4fb.png"),
    Animation(8, "悬停按钮", "动态按钮",
      "/animations/button2.png",
      "鼠标悬停特效按钮，添加波纹效果和阴影变化",
      "/pag-files/hover.pag",
      "https://gdc.kg.qq.com/timage/2117/bbf8db0f2f3951180fe876a258d8fa20.png"),
    Animation(9, "加载图标", "动态图标",
      "/animations/icon2.png",
      "创意加载动画图标，流畅循环旋转效果",
      "/pag-files/loading.pag",
      "https://gdc.kg.qq.com/timage/2117/aa60e84da8fb928cb2fc8dba8d380ac9.png"),
    Animation(10, "饼图动画", "数据可视化",
      "/animations/chart2.png",
      "饼图扇形展开动画，展示数据占比变化",
      "/pag-files/bingtu.pag",
      "https://gdc.kg.qq.com/timage/2117/6ce926df3b1e1cf68cc4ed9a03d0962a.png"),
    Animation(11, "产品展示", "品牌展示和营销素材",
      "/animations/brand2.png",
      "3D产品旋转展示，展现产品全方位视角",
      "/pag-files/intro.pag",
      "https://gdc.kg.qq.com/timage/2117/24ae2f3eea61d554efae982ae1d8340e.png"),
    Animation(13, "流程图动画", "复杂路径动画",
      "/animations/path2.png",
      "复杂流程图路径动画，展示流程步骤和连接关系",
      "/pag-files/flow.pag",
      "https://gdc.kg.qq.com/timage/2117/a139a84d80dd62173ef24fe6b44c5f75.png"),
    Animation(14, "角色动画", "教育与互动",
      "/animations/edu2.png",
      "卡通角色引导动画，增加教程趣味性和互动性",
      "/pag-files/people.pag",
      "https://gdc.kg.qq.com/timage/2117/230ee9425c0122cccdb476b90b36e790.png"),
    Animation(15, "进度按钮", "动态按钮",
      "/animations/button3.png",
      "带进度条的提交按钮，显示操作进度状态",
      "/pag-files/progress.pag",
      "https://gdc.kg.qq.com/timage/2117/36fa6bd764405de5ee5af32ced2477d9.png"),
    Animation(16, "天气图标", "动态图标",
      "/animations/icon3.png",
      "天气状态图标动画，生动展示不同天气状况",
      "/pag-files/weather.pag",
      "https://gdc.kg.qq.com/timage/2117/01b5bea8c62ec531e38444c7f7329749.png")
  ]

  /** No value occurs twice. */
  predicate Distinct<T(==)>(s: seq<T>) {
    forall i, j :: 0 <= i < j < |s| ==> s[i] != s[j]
  }

  /** The ids of the records, in order. */
  function Ids(s: seq<Animation>): (ids: seq<int>)
    ensures |ids| == |s|
    ensures forall k :: 0 <= k < |s| ==> ids[k] == s[k].id
  {
    seq(|s|, k requires 0 <= k < |s| => s[k].id)
  }

  /** Each record's id is smaller than the next one's. */
  predicate IdsAscending(s: seq<Animation>) {
    forall k :: 0 <= k < |s| - 1 ==> s[k].id < s[k + 1].id
  }

  lemma {:induction false} AscendingBetween(s: seq<Animation>, i: int, j: int)
    requires IdsAscending(s)
    requires 0 <= i < j < |s|
    ensures s[i].id < s[j].id
    decreases j - i
  {
    if i + 1 < j {
      AscendingBetween(s, i + 1, j);
    }
  }

  /** Ascending ids are distinct ids. */
  lemma AscendingIdsAreDistinct(s: seq<Animation>)
    requires IdsAscending(s)
    ensures Distinct(Ids(s))
  {
    forall i, j | 0 <= i < j < |s| ensures Ids(s)[i] != Ids(s)[j] {
      AscendingBetween(s, i, j);
    }
  }

  /** The catalogue's ids are pairwise distinct, so they can serve as React keys and routes. */
  lemma CatalogueIdsDistinct()
    ensures Distinct(Ids(animations))
  {
    assert IdsAscending(animations);
    AscendingIdsAreDistinct(animations);
  }

  /** No category is listed twice, so the filter buttons have distinct keys. */
  lemma CategoriesDistinct()
    ensures Distinct(categories)
  {
  }

  /** Every record is filed under a listed category. */
  lemma CategoriesCoverCatalogue()
    ensures forall a :: a in animations ==> a.category in categories
  {
  }

  /** The catalogue holds fifteen records over seven categories; the record with id 12 is not part of it. */
  lemma CatalogueShape()
    ensures |animations| == 15 && |categories| == 7
    ensures forall a :: a in animations ==> a.id != 12
  {
    assert IdsAscending(animations);
    forall a | a in animations ensures a.id != 12 {
      var k :| 0 <= k < |animations| && animations[k] == a;
      if k <= 10 {
        if k < 10 { AscendingBetween(animations, k, 10); }
      } else {
        if k > 11 { AscendingBetween(animations, 11, k); }
      }
    }
  }
}
